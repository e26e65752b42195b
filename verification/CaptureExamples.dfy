// Two races, as runs: a failure record that is numbered too early, and a settling call that releases the
// entry of another sink.

module CaptureExamples {
  import opened CandidateEntries
  import opened CaptureLaws
  import opened CaptureRuns
  import opened CaptureSdk
  import opened Ledger
  import opened MapSums
  import opened Options
  import opened Records
  import opened Sections
  import opened StormGate

  lemma {:induction false} RunAppend(s: State, steps: seq<Step>, step: Step)
    requires Legal(s, steps) && Enabled(Run(s, steps), step)
    ensures Legal(s, steps + [step]) && Run(s, steps + [step]) == Apply(Run(s, steps), step)
    decreases |steps|
  {
    hide Apply, Enabled;
    if steps == [] {
      assert [step][1..] == [] && Run(Apply(s, step), []) == Apply(s, step);
      assert [] + [step] == [step];
    } else {
      assert (steps + [step])[1..] == steps[1..] + [step];
      RunAppend(Apply(s, steps[0]), steps[1..], step);
    }
  }

  lemma ReachStep(s: State, step: Step)
    requires Reachable(s) && Enabled(s, step)
    ensures Reachable(Apply(s, step))
  {
    hide Apply, Enabled;
    var steps :| Legal(Init(), steps) && s == Run(Init(), steps);
    RunAppend(Init(), steps, step);
  }

  lemma InitReachable()
    ensures Reachable(Init())
  {
    hide Apply, Enabled;
    assert Legal(Init(), []) && Run(Init(), []) == Init();
  }

  const BEGIN_RECORD: EventRecord := EventRecord(EventKind.Begin, [], 0)
  const FAILURE_RECORD: EventRecord := EventRecord(Failure, [], 1)
  const OPERATION: ActiveOperation := ActiveOperation(32, [BEGIN_RECORD], 7, true)
  const CANDIDATE: Candidate := Candidate(7, 5, [BEGIN_RECORD, FAILURE_RECORD, EventRecord(Terminal, [], 2)], Some(100))
  const ENCODING: Encoding := Encoding(Some([]), true, Some(9), Some(100))

  function Storing(o: ActiveOperation, numbered: map<Call, Numbered>): SdkState {
    NewSdkState(RecorderSink(1)).(operations := map[5 := o], globalBytes := o.bytes, numbered := numbered)
  }

  function Holding(bytes: nat): Books {
    Books(map[5 := bytes], bytes, map[], 0)
  }

  lemma BeginRuns()
    ensures BeginSection(NewSdkState(RecorderSink(1)), EMPTY_BOOKS, 5, 7, Some([]), true)
            == Reply(Ok(()), Storing(OPERATION, map[]), Holding(32))
  {
    assert map[][5 := OPERATION] == map[5 := OPERATION];
  }

  /** An Sdk over a recorder, with a call about the candidate in the given phase. */
  function Calling(phase: Phase, rec: RecorderState, b: Books, place: map<Id, Place>): State {
    State(b, map[2 := NewSdkState(RecorderSink(1)).(phase := phase)], map[1 := rec], [Admission(9, 0)], 0, map[],
          map[7 := 2], place)
  }

  lemma NumberRuns()
    ensures NumberSection(Storing(OPERATION, map[]), 0, 5, Some([]))
         == (Ok(FAILURE_RECORD), Storing(OPERATION, map[0 := Numbered(5, FAILURE_RECORD, 0, false)]))
  {
  }

  lemma Opened() returns (s: State)
    ensures Reachable(s)
    ensures s == Init().(recorders := map[1 := NewRecorderState(5)], sdks := map[2 := NewSdkState(RecorderSink(1))])
  {
    InitReachable();
    ReachStep(Init(), NewRecorder(1, 5));
    var s1 := Apply(Init(), NewRecorder(1, 5));
    assert s1.recorders == map[1 := NewRecorderState(5)];
    ReachStep(s1, NewSdk(2, RecorderSink(1)));
    s := Apply(s1, NewSdk(2, RecorderSink(1)));
    assert s.sdks == map[2 := NewSdkState(RecorderSink(1))];
  }

  lemma Began() returns (s: State)
    ensures Reachable(s)
    ensures s == Init().(books := Holding(32), owner := map[5 := 2], recorders := map[1 := NewRecorderState(5)],
                         sdks := map[2 := Storing(OPERATION, map[])])
  {
    hide BeginSection;
    var s2 := Opened();
    BeginRuns();
    ReachStep(s2, BeginStep(2, 5, 7, Some([]), true));
    s := Apply(s2, BeginStep(2, 5, 7, Some([]), true));
    assert s.sdks == map[2 := Storing(OPERATION, map[])] && s.owner == map[5 := 2];
  }

  lemma NumberedFailure() returns (s: State)
    ensures Reachable(s)
    ensures s == Init().(books := Holding(32), owner := map[5 := 2], recorders := map[1 := NewRecorderState(5)],
                         sdks := map[2 := Storing(OPERATION, map[0 := Numbered(5, FAILURE_RECORD, 0, false)])])
  {
    hide NumberSection;
    var s0 := Began();
    NumberRuns();
    ReachStep(s0, Number(2, 0, 5, Some([])));
    s := Apply(s0, Number(2, 0, 5, Some([])));
    assert s.sdks == map[2 := Storing(OPERATION, map[0 := Numbered(5, FAILURE_RECORD, 0, false)])];
  }

  lemma SealRuns()
    ensures RemoveSection(Storing(OPERATION, map[0 := Numbered(5, FAILURE_RECORD, 0, false)]), Holding(32), 0, ENCODING)
         == Reply((), NewSdkState(RecorderSink(1)).(phase := Sealed(0, CANDIDATE, 9)), EMPTY_BOOKS)
  {
    assert OPERATION.records + [FAILURE_RECORD] + [EventRecord(Terminal, [], 2)] == CANDIDATE.records;
    assert Seal(OPERATION, FAILURE_RECORD, Some([])) == Ok(CANDIDATE.records);
    assert Removed(map[0 := Numbered(5, FAILURE_RECORD, 0, false)], 0) == map[]
           && Removed(map[5 := OPERATION], 5) == map[];
    assert Removed(map[5 := 32], 5) == map[] && Restarted(map[], 5) == map[];
  }

  lemma SealedFailure() returns (s: State)
    ensures Reachable(s)
    ensures s == Calling(Sealed(0, CANDIDATE, 9), NewRecorderState(5), EMPTY_BOOKS, map[]).(admissions := [])
  {
    hide RemoveSection, Removed;
    var s0 := NumberedFailure();
    SealRuns();
    assert Removed(s0.owner, 5) == map[] by { RemovedPut(map[], 5, 2); }
    ReachStep(s0, Remove(2, 0, ENCODING));
    s := Apply(s0, Remove(2, 0, ENCODING));
    assert s.sdks == map[2 := NewSdkState(RecorderSink(1)).(phase := Sealed(0, CANDIDATE, 9))];
  }

  lemma PassedGate() returns (s: State)
    ensures Reachable(s)
    ensures s == Calling(Passed(0, CANDIDATE), NewRecorderState(5), EMPTY_BOOKS, map[])
  {
    var s0 := SealedFailure();
    assert Decide([], 9, 0).Admitted?;
    ReachStep(s0, Admit(2, 0));
    s := Apply(s0, Admit(2, 0));
    assert s.sdks == map[2 := NewSdkState(RecorderSink(1)).(phase := Passed(0, CANDIDATE))];
  }

  const HANDED_OFF: Books := Books(map[], 0, map[7 := CandidateEntry(100, Handoff)], 100)
  const CLAIMED: Books := Books(map[], 0, map[7 := CandidateEntry(100, Retained)], 100)

  lemma Reserved() returns (s: State)
    ensures Reachable(s)
    ensures s == Calling(HandedOff(0, CANDIDATE), NewRecorderState(5), HANDED_OFF, map[7 := Flight(2)])
  {
    var s0 := PassedGate();
    ReachStep(s0, HandOff(2));
    s := Apply(s0, HandOff(2));
  }

  lemma ClaimRuns()
    ensures ClaimSection(NewSdkState(RecorderSink(1)).(phase := HandedOff(0, CANDIDATE)), HANDED_OFF)
         == Reply((), NewSdkState(RecorderSink(1)).(phase := InSink(0, CANDIDATE)), CLAIMED)
  {
  }

  lemma InItsSink() returns (s: State)
    ensures Reachable(s)
    ensures s == Calling(InSink(0, CANDIDATE), NewRecorderState(5), CLAIMED, map[7 := Flight(2)])
  {
    hide ClaimSection;
    var s0 := Reserved();
    ClaimRuns();
    ReachStep(s0, Claim(2));
    s := Apply(s0, Claim(2));
    assert s.sdks == map[2 := NewSdkState(RecorderSink(1)).(phase := InSink(0, CANDIDATE))];
  }

  lemma SentAndKept() returns (s: State)
    ensures Reachable(s)
    ensures s == Calling(Sent(0, CANDIDATE, true), RecorderState(5, 100, Some(CANDIDATE), 0), CLAIMED,
                         map[7 := Kept(1)])
  {
    var s0 := InItsSink();
    ReachStep(s0, Keep(2));
    s := Apply(s0, Keep(2));
    assert s.recorders == map[1 := RecorderState(5, 100, Some(CANDIDATE), 0)];
  }

  /** Someone takes the candidate out before its call looks whether it is retained. */
  lemma TakenOut() returns (s: State)
    ensures Reachable(s)
    ensures s == Calling(Sent(0, CANDIDATE, true), NewRecorderState(5), CLAIMED, map[7 := Leaving])
  {
    var s0 := SentAndKept();
    ReachStep(s0, Take(1));
    s := Apply(s0, Take(1));
    assert s.recorders == map[1 := NewRecorderState(5)] && s.place == map[7 := Leaving];
  }

  lemma GivenBack() returns (s: State)
    ensures Reachable(s)
    ensures s == Calling(Sent(0, CANDIDATE, true), NewRecorderState(5), EMPTY_BOOKS, map[])
  {
    var s0 := TakenOut();
    ReachStep(s0, ReleaseTaken(7));
    assert Removed(s0.books.candidates, 7) == map[] && Removed(s0.place, 7) == map[];
    s := Apply(s0, ReleaseTaken(7));
  }

  lemma FoundGone() returns (s: State)
    ensures Reachable(s)
    ensures s == Calling(Checked(0, CANDIDATE, true, false), NewRecorderState(5), EMPTY_BOOKS, map[])
  {
    var s0 := GivenBack();
    ReachStep(s0, Check(2));
    s := Apply(s0, Check(2));
  }

  lemma ClaimedElsewhere() returns (s: State)
    ensures Reachable(s)
    ensures s == Calling(Checked(0, CANDIDATE, true, false), NewRecorderState(5), CLAIMED, map[7 := Elsewhere])
  {
    var s0 := FoundGone();
    ReachStep(s0, PutElsewhere(7, 100));
    s := Apply(s0, PutElsewhere(7, 100));
  }

  /**
   * The candidate is taken out of its recorder and claimed by a managed sink between the last two sections
   * of the failing call: the call then releases the managed sink's entry, and its bytes are not counted.
   */
  lemma StrangersEntryReleased() returns (s: State, s': State)
    ensures Reachable(s) && Enabled(s, Settle(2)) && s' == Apply(s, Settle(2))
    ensures InPlace(s, 7, Elsewhere) && HasEntry(s, 7, CandidateEntry(100, Retained)) && 7 !in s'.books.candidates
  {
    s := ClaimedElsewhere();
    s' := Apply(s, Settle(2));
    ReturnedKeepsRest(s.books, 7);
  }

  // ---- numbered too early --------------------------------------------------------------------------------

  const INPUT_RECORD: EventRecord := EventRecord(Input, [], 1)
  const LONGER: ActiveOperation := ActiveOperation(64, [BEGIN_RECORD, INPUT_RECORD], 7, true)

  lemma AppendRuns()
    ensures AppendSection(Storing(OPERATION, map[0 := Numbered(5, FAILURE_RECORD, 0, false)]), Holding(32), 5, Input,
                          Some([]))
         == Reply(Some(Ok(())), Storing(LONGER, map[0 := Numbered(5, FAILURE_RECORD, 1, false)]), Holding(64))
  {
    assert Appended(map[0 := Numbered(5, FAILURE_RECORD, 0, false)], 5)
           == map[0 := Numbered(5, FAILURE_RECORD, 1, false)];
    assert OPERATION.records + [INPUT_RECORD] == LONGER.records;
    assert map[5 := OPERATION][5 := LONGER] == map[5 := LONGER] && map[5 := 32][5 := 64] == map[5 := 64];
  }

  lemma RemoveRuns()
    ensures var r := RemoveSection(Storing(LONGER, map[0 := Numbered(5, FAILURE_RECORD, 1, false)]), Holding(64), 0,
                                   ENCODING);
            r.sdk.phase.Sealed?
            && r.sdk.phase.candidate.records == LONGER.records + [FAILURE_RECORD] + [EventRecord(Terminal, [], 3)]
  {
    assert Seal(LONGER, FAILURE_RECORD, Some([]))
           == Ok(LONGER.records + [FAILURE_RECORD] + [EventRecord(Terminal, [], 3)]);
  }

  /** A record is appended between the section that numbers the failure and the one that seals its operation. */
  method FailureNumberedTooEarly() returns (sealed: Candidate)
    ensures !Contiguous(sealed.records)
  {
    hide BeginSection, NumberSection, AppendSection, RemoveSection, Balanced;
    BeginRuns();
    NumberRuns();
    AppendRuns();
    RemoveRuns();
    var resources := new ProcessResources();
    var recorder := new LocalRecorder(5, resources);
    var sdk := new Sdk(resources, recorder, 1);
    var began := sdk.Begin(5, 7, Some([]), true);
    var failure := sdk.FailureRecord(0, 5, Some([]));
    var appended := sdk.Append(5, Input, Some([]));
    var candidate := sdk.Remove(0, 5, failure.value, ENCODING);
    sealed := candidate.value;
    assert sealed.records[2].sequence == 1;
  }
}
