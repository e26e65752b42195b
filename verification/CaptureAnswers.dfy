// How each call of an Sdk is answered, error by error; and that a failing operation is reported
// delivered iff its sink said that it took the candidate and the candidate was then found retained.

module CaptureAnswers {
  import opened Arith
  import opened CandidateEntries
  import opened CaptureLaws
  import opened CaptureRuns
  import opened CaptureTheorems
  import opened Ledger
  import opened MapSums
  import opened Options
  import opened Records
  import opened Sections
  import opened StormGate
  import T = CaptureTally
  import Y = CaptureStory

  // ---- the answers of begin, append and fail ---------------------------------------------------------

  /** A schema error is a payload without canonical bytes or an operation begun twice; else it is room or size. */
  lemma BeginAnswers(s: State, k: Id, id: Id, captureId: Id, payload: Option<seq<bv8>>, world: bool)
    requires Reachable(s) && Enabled(s, BeginStep(k, id, captureId, payload, world))
    ensures var d, d' := s.sdks[k], Apply(s, BeginStep(k, id, captureId, payload, world)).sdks[k];
            var answer := BeginSection(d, s.books, id, captureId, payload, world).result;
            && (answer.Ok? <==> d' != d) && answer != Err(IncompleteCandidate)
            && (answer == Err(SchemaInvalid) <==> payload.None? || (Recordable(payload) && id in d.operations))
  {
    BeginVerdict(s, k, id, captureId, payload, world);
    BeginErrors(s.sdks[k], s.books, id, captureId, payload, world);
    Y.TableIs(s, BeginStep(k, id, captureId, payload, world));
    hide Apply, Enabled, BeginSection, Reachable;
  }

  lemma BeginErrors(d: SdkState, b: Books, id: Id, captureId: Id, payload: Option<seq<bv8>>, world: bool)
    ensures var r := BeginSection(d, b, id, captureId, payload, world);
            && (r.result.Ok? ==> id !in d.operations && id in r.sdk.operations) && (r.result.Err? ==> r.sdk == d)
            && r.result != Err(IncompleteCandidate)
            && (r.result == Err(SchemaInvalid) <==> payload.None? || (Recordable(payload) && id in d.operations))
  {
    hide Reserved, MayReserve, RecordSize;
  }

  /** What an append says of each of its outcomes; it says nothing yet when the operation must go first. */
  lemma AppendAnswers(s: State, k: Id, id: Id, kind: EventKind, payload: Option<seq<bv8>>)
    requires Enabled(s, Append(k, id, kind, payload))
    ensures var d, d' := s.sdks[k], Apply(s, Append(k, id, kind, payload)).sdks[k];
            var answer := AppendSection(d, s.books, id, kind, payload).result;
            && (answer.None? <==> d'.phase == Dropping(id))
            && (answer == Some(Err(IncompleteCandidate)) <==> id !in d.operations)
            && (answer == Some(Err(SchemaInvalid)) <==> id in d.operations && payload.None?)
            && (answer == Some(Ok(())) <==> Y.Stored(Apply(s, Append(k, id, kind, payload)), k, id)
                                            > Y.Stored(s, k, id))
  {
    Y.TableIs(s, Append(k, id, kind, payload));
    hide Apply, Enabled, Released, Grown, Appended, Restarted, RecordSize, MayGrow;
  }

  /** The operation of a dropped append is gone from the table and the ledger, and the append was out of room. */
  lemma DropVerdict(s: State, k: Id)
    requires Reachable(s) && Enabled(s, Drop(k))
    ensures var d, s' := s.sdks[k], Apply(s, Drop(k)); var id := d.phase.operationId;
            && DropSection(d, s.books).result == Err(RuntimeQuota)
            && s'.sdks[k].operations == Removed(d.operations, id) && s'.sdks[k].phase.Free?
            && s'.books.active == Removed(s.books.active, id)
  {
    ReachableInv(s);
    ReleasedBalances(s.books, s.sdks[k].phase.operationId);
    hide Inv, Restarted, OwnerAfter;
  }

  /** `succeed`, `cancel` and `abandon_incomplete` end exactly this operation, here and in the ledger. */
  lemma ForgetVerdict(s: State, k: Id, id: Id, counted: bool)
    requires Reachable(s) && Enabled(s, Forget(k, id, counted))
    ensures var d, s' := s.sdks[k], Apply(s, Forget(k, id, counted));
            && s'.sdks[k].operations == Removed(d.operations, id)
            && s'.books.active == (if id in d.operations then Removed(s.books.active, id) else s.books.active)
            && s'.books.candidates == s.books.candidates
  {
    ReachableInv(s);
    ForgetIs(s, k, id, counted);
    ForgottenIs(s.sdks[k], s.books, id, counted);
    assert SdkOk(s, k);
    hide Inv, Apply, Enabled, SdkOk, ForgetSection;
  }

  lemma ForgetIs(s: State, k: Id, id: Id, counted: bool)
    requires Enabled(s, Forget(k, id, counted))
    ensures var r, s' := ForgetSection(s.sdks[k], s.books, id, counted), Apply(s, Forget(k, id, counted));
            s'.sdks[k] == r.sdk && s'.books == r.books
  {
    hide ForgetSection, OwnerAfter;
  }

  lemma ForgottenIs(d: SdkState, b: Books, id: Id, counted: bool)
    requires Balanced(b)
    ensures var r := ForgetSection(d, b, id, counted);
            && r.sdk.operations == Removed(d.operations, id) && r.books.candidates == b.candidates
            && r.books.active == if id in d.operations then Removed(b.active, id) else b.active
  {
    hide Balanced, Restarted, Removed;
    ReleasedBalances(b, id);
    if id !in d.operations { RemovedAbsent(d.operations, id); }
  }

  /** A world is bound once: to a stored operation that has none, and a second binding is a schema error. */
  lemma BindVerdict(s: State, k: Id, id: Id)
    requires Enabled(s, Bind(k, id))
    ensures var d, d' := s.sdks[k], Apply(s, Bind(k, id)).sdks[k]; var answer := BindSection(d, id).0;
            && (answer == Ok(()) <==> id in d.operations && !d.operations[id].worldBound)
            && (answer == Err(SchemaInvalid) <==> id in d.operations && d.operations[id].worldBound)
            && (id in d.operations <==> id in d'.operations) && (id in d'.operations ==> d'.operations[id].worldBound)
            && (answer.Err? ==> d' == d) && BindSection(d', id).0.Err?
            && (id in d.operations ==>
                  d'.operations[id] == d.operations[id].(worldBound := true)
                  && d'.operations == d.operations[id := d'.operations[id]])
  {
    var d := s.sdks[k];
    if id in d.operations && d.operations[id].worldBound {
      assert d.operations[id].(worldBound := true) == d.operations[id];
      assert d.operations == d.operations[id := d.operations[id]];
    }
    hide OwnerAfter;
  }

  /** `fail` is refused for want of an operation, its world or a payload of the right size, in this order. */
  lemma NumberAnswers(s: State, k: Id, call: Call, id: Id, payload: Option<seq<bv8>>)
    requires Enabled(s, Number(k, call, id, payload))
    ensures var d := s.sdks[k]; var answer := NumberSection(d, call, id, payload).0;
            && (answer == Err(IncompleteCandidate) <==> id !in d.operations || !d.operations[id].worldBound)
            && (answer == Err(SchemaInvalid) <==> id in d.operations && d.operations[id].worldBound && payload.None?)
            && (answer.Ok? <==> call in Apply(s, Number(k, call, id, payload)).sdks[k].numbered)
            && (answer.Ok? ==> answer.value == EventRecord(Failure, Y.Plain(payload), |d.operations[id].records|))
  {
  }

  // ---- local recorders ---------------------------------------------------------------------------------

  /** A recorder keeps a claimed candidate of its own operation, one at most, and no larger than one operation. */
  lemma KeepVerdict(s: State, k: Id)
    requires Enabled(s, Keep(k))
    ensures var d, s' := s.sdks[k], Apply(s, Keep(k)); var r, c := d.sink.recorder, d.phase.candidate;
            var before, after := s.recorders[r], s'.recorders[r];
            if d.phase.InSink? && before.candidate.None? && c.operationId == before.operationId
               && Length(c) <= MAX_OPERATION_BYTES then
              after == before.(bytes := Length(c), candidate := Some(c))
              && s'.sdks[k].phase == Sent(d.phase.call, c, true)
            else
              && after == before.(incomplete := SatAdd(before.incomplete, 1))
              && s'.sdks[k].phase == if d.phase.InSink? then Refusing(d.phase.call, c) else Sent(d.phase.call, c, false)
  {
  }

  /** A candidate is taken out once: its recorder is then empty and could keep the next one. */
  lemma TakeVerdict(s: State, r: Id)
    requires Enabled(s, Take(r))
    ensures var taken, s' := TakeSection(s.recorders[r]).0, Apply(s, Take(r));
            && taken == s.recorders[r].candidate && taken.Some?
            && s'.recorders[r] == NewRecorderState(s.recorders[r].operationId).(incomplete := s.recorders[r].incomplete)
            && !Enabled(s', Take(r)) && InPlace(s', taken.value.captureId, Leaving)
  {
  }

  // ---- what a call says of its candidate -----------------------------------------------------------------

  /** What the sink of each Sdk's call has said, from the steps alone. */
  type Said = map<Id, bool>

  function Hear(said: Said, s: State, s': State, step: Step): Said {
    match step
    case Keep(k) =>
      if k in s.sdks && s.sdks[k].sink.RecorderSink? then
        said[k := !Y.Keeping(s, s.sdks[k].sink.recorder) && Y.Keeping(s', s.sdks[k].sink.recorder)]
      else said
    case Answer(k, sent) => said[k := sent]
    case _ => said
  }

  ghost function HearAll(said: Said, s: State, steps: seq<Step>): Said
    requires Legal(s, steps)
    decreases |steps|
  {
    if steps == [] then said
    else HearAll(Hear(said, s, Apply(s, steps[0]), steps[0]), Apply(s, steps[0]), steps[1..])
  }

  /** Once the sink has answered, the call's phase carries its answer. */
  predicate Answered(said: Said, s: State, k: Id) {
    k in s.sdks ==>
      match s.sdks[k].phase
      case Refusing(_, _) => k in said && !said[k]
      case Sent(_, _, sent) => k in said && said[k] == sent
      case Checked(_, _, sent, _) => k in said && said[k] == sent
      case _ => true
  }

  lemma TablePhase(s: State, step: Step)
    requires Enabled(s, step)
    requires step.BeginStep? || step.Bind? || step.Append? || step.Drop? || step.Forget? || step.Observe?
             || step.Number?
             || step.Remove? || step.StartEnd? || step.EndOne?
    ensures step.sdk in s.sdks && step.sdk in Apply(s, step).sdks
    ensures var p := Apply(s, step).sdks[step.sdk].phase; p.Free? || p.Dropping? || p.Ending? || p.Sealed?
  {
    hide Released, Reserved, Grown, Restarted, Appended, Removed, OwnerAfter, Seal, MakeRecord;
  }

  lemma KeepSays(said: Said, s: State, k: Id)
    requires Enabled(s, Keep(k)) && Answered(said, s, k)
    ensures Answered(Hear(said, s, Apply(s, Keep(k)), Keep(k)), Apply(s, Keep(k)), k)
  {
    KeepVerdict(s, k);
    Y.KeepIs(s, k);
    hide Apply;
  }

  lemma EndsSay(s: State, step: Step)
    requires Enabled(s, step) && (step.NewSdk? || step.End?)
    ensures step.sdk in Apply(s, step).sdks ==> Apply(s, step).sdks[step.sdk].phase.Free?
  {
  }

  lemma CallSays(said: Said, s: State, step: Step)
    requires step.Admit? || step.HandOff? || step.Claim? || step.Answer? || step.GiveUp? || step.Check? || step.Settle?
    requires Enabled(s, step) && Answered(said, s, step.sdk)
    ensures Answered(Hear(said, s, Apply(s, step), step), Apply(s, step), step.sdk)
  {
    assert step.sdk in s.sdks;
    Y.CallIs(s, step);
    hide Enabled, Apply, Claimed, Claimable, Returned, Entered, MayHandOff, IsRetained, Counted, Decide;
  }

  lemma OthersLeave(s: State, step: Step, k: Id)
    requires Enabled(s, step) && (T.OfNoSdk(step) || step.sdk != k)
    ensures T.Leaves(s, Apply(s, step), k)
  {
    hide Apply, Enabled, T.Leaves;
    if T.OfNoSdk(step) {
      T.OtherParty(s, step, k);
    } else if step.Admit? || step.HandOff? || step.Claim? || step.Keep? || step.Answer? || step.GiveUp? || step.Check?
              || step.Settle? {
      T.OtherCall(s, step, k);
    } else {
      T.OtherTable(s, step, k);
    }
  }

  lemma StepSays(said: Said, s: State, step: Step, k: Id)
    requires Enabled(s, step) && Answered(said, s, k)
    ensures Answered(Hear(said, s, Apply(s, step), step), Apply(s, step), k)
  {
    if T.OfNoSdk(step) || step.sdk != k {
      OthersLeave(s, step, k);
      hide Apply, Enabled;
    } else if step.Keep? {
      KeepSays(said, s, k);
      hide Apply, Enabled;
    } else if step.NewSdk? || step.End? {
      EndsSay(s, step);
      hide Apply, Enabled;
    } else if step.Admit? || step.HandOff? || step.Claim? || step.Answer? || step.GiveUp? || step.Check?
           || step.Settle? {
      CallSays(said, s, step);
      hide Apply, Enabled;
    } else {
      TablePhase(s, step);
      hide Apply, Enabled;
    }
  }

  lemma {:induction false} RunSays(said: Said, s: State, steps: seq<Step>, k: Id)
    requires Legal(s, steps) && Answered(said, s, k)
    ensures Answered(HearAll(said, s, steps), Run(s, steps), k)
    decreases |steps|
  {
    hide Apply, Enabled, Hear, Answered;
    if steps != [] {
      StepSays(said, s, steps[0], k);
      RunSays(Hear(said, s, Apply(s, steps[0]), steps[0]), Apply(s, steps[0]), steps[1..], k);
    }
  }

  /**
   * In every run a failing operation that settles is reported delivered iff its sink said that it took the
   * candidate and, for a sink that retains, the candidate was found retained; otherwise it is refused.
   */
  lemma DeliveredMeans(steps: seq<Step>, k: Id)
    requires Legal(Init(), steps) && Enabled(Run(Init(), steps), Settle(k))
    ensures var s, said := Run(Init(), steps), HearAll(map[], Init(), steps);
            var p := s.sdks[k].phase; var d' := Apply(s, Settle(k)).sdks[k];
            && k in said && p.call in d'.outcomes
            && d'.outcomes[p.call] == (if said[k] && (s.sdks[k].sink.PlainSink? || p.retained) then Delivered
                                       else Refused)
  {
    var s := Run(Init(), steps);
    assert Reachable(s);
    RunSays(map[], Init(), steps, k);
    SettleVerdict(s, k);
    hide Apply, Run, HearAll;
  }

  // ---- what a recorder counts ------------------------------------------------------------------------------

  /** A candidate that reached this recorder was not kept. */
  function Missed(n: nat, s: State, s': State, step: Step, r: Id): nat {
    if r !in s.recorders || r !in s'.recorders then 0
    else if step.Keep? && step.sdk in s.sdks && s.sdks[step.sdk].sink == RecorderSink(r)
            && !(!Y.Keeping(s, r) && Y.Keeping(s', r)) then n + 1
    else n
  }

  ghost function MissedAll(n: nat, s: State, steps: seq<Step>, r: Id): nat
    requires Legal(s, steps)
    decreases |steps|
  {
    if steps == [] then n
    else MissedAll(Missed(n, s, Apply(s, steps[0]), steps[0], r), Apply(s, steps[0]), steps[1..], r)
  }

  predicate MissesTrue(n: nat, s: State, r: Id) {
    if r in s.recorders then s.recorders[r].incomplete == Min(n, U64_MAX) else n == 0
  }

  lemma KeepMisses(n: nat, s: State, k: Id, r: Id)
    requires Enabled(s, Keep(k)) && MissesTrue(n, s, r)
    ensures MissesTrue(Missed(n, s, Apply(s, Keep(k)), Keep(k), r), Apply(s, Keep(k)), r)
  {
    KeepVerdict(s, k);
    Y.KeepIs(s, k);
    hide Apply;
  }

  lemma TableMissesNone(s: State, step: Step)
    requires Enabled(s, step)
    requires step.NewSdk? || step.BeginStep? || step.Bind? || step.Append? || step.Drop? || step.Forget?
             || step.Observe?
             || step.Number? || step.Remove? || step.StartEnd? || step.EndOne? || step.End?
    ensures Apply(s, step).recorders == s.recorders
  {
    hide BeginSection, AppendSection, NumberSection, RemoveSection, BindSection, DropSection, ForgetSection,
      ObserveSection, WithoutOperation, Released, OwnerAfter;
  }

  lemma CallMissesNone(s: State, step: Step)
    requires Enabled(s, step)
    requires step.Admit? || step.HandOff? || step.Claim? || step.Answer? || step.GiveUp? || step.Check? || step.Settle?
    ensures Apply(s, step).recorders == s.recorders
  {
    hide AdmitSection, HandOffSection, ClaimSection, AnswerSection, GiveUpSection, CheckSection, SettleSection, Decide;
  }

  lemma LedgerMissesNone(s: State, step: Step)
    requires Enabled(s, step) && (step.ReleaseTaken? || step.PutElsewhere? || step.ReleaseElsewhere?)
    ensures Apply(s, step).recorders == s.recorders
  {
    hide Returned, Entered, Removed;
  }

  lemma RecorderMissesNone(s: State, step: Step, r: Id)
    requires Enabled(s, step) && (step.Take? || step.EndRecorder? || step.NewRecorder?) && r in Apply(s, step).recorders
    ensures if r in s.recorders then Apply(s, step).recorders[r].incomplete == s.recorders[r].incomplete
            else Apply(s, step).recorders[r].incomplete == 0
  {
    if step.EndRecorder? { RemovedEverywhere(s.recorders, step.recorder); }
    hide Returned, Entered, Removed;
  }

  /** Every other step leaves the counters of the recorders that stay. */
  lemma OtherMisses(s: State, step: Step, r: Id)
    requires Enabled(s, step) && !step.Keep? && r in Apply(s, step).recorders
    ensures if r in s.recorders then Apply(s, step).recorders[r].incomplete == s.recorders[r].incomplete
            else Apply(s, step).recorders[r].incomplete == 0
  {
    hide Apply, Enabled;
    if step.Take? || step.EndRecorder? || step.NewRecorder? {
      RecorderMissesNone(s, step, r);
    } else if T.OfNoSdk(step) {
      LedgerMissesNone(s, step);
    } else if step.Admit? || step.HandOff? || step.Claim? || step.Answer? || step.GiveUp? || step.Check?
           || step.Settle? {
      CallMissesNone(s, step);
    } else {
      TableMissesNone(s, step);
    }
  }

  lemma {:induction false} RunMisses(n: nat, s: State, steps: seq<Step>, r: Id)
    requires Legal(s, steps) && MissesTrue(n, s, r)
    ensures MissesTrue(MissedAll(n, s, steps, r), Run(s, steps), r)
    decreases |steps|
  {
    if steps != [] {
      if steps[0].Keep? {
        KeepMisses(n, s, steps[0].sdk, r);
      } else if r in Apply(s, steps[0]).recorders {
        OtherMisses(s, steps[0], r);
      }
      hide Apply, Enabled;
      RunMisses(Missed(n, s, Apply(s, steps[0]), steps[0], r), Apply(s, steps[0]), steps[1..], r);
    }
  }

  /** In every run a recorder's counter is the number of candidates that it did not keep, up to saturation. */
  lemma RecorderCountIsTrue(steps: seq<Step>, r: Id)
    requires Legal(Init(), steps) && r in Run(Init(), steps).recorders
    ensures Run(Init(), steps).recorders[r].incomplete == Min(MissedAll(0, Init(), steps, r), U64_MAX)
  {
    RunMisses(0, Init(), steps, r);
  }
}
