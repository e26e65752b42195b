// Captures that do close: any sessions, of any classes, parents, bytes and outcomes, one after another.

module WorldExamples {
  import opened Classes
  import opened MapSums
  import opened Options
  import opened Semantics
  import opened World
  import opened WorldStory
  import L = WorldLaws

  /** What one session is to record. */
  datatype Plan = Plan(class_: ObservationClass, parent: Option<int>, request: Bytes, response: Bytes, outcome: Outcome)

  predicate Fits(p: Plan) {
    0 < |p.request| <= MAX_CHUNK_BYTES && 0 < |p.response| <= MAX_CHUNK_BYTES
  }

  /** The calls of one session, when nothing fails outside. */
  function Calls(id: Id, p: Plan, position: nat): seq<L.Step> {
    [L.OpenStep(id, p.class_, p.parent, false, 2),
     L.WriteStep(id, RequestStream, p.request, true, |p.request|),
     L.DispatchStep(id, DispatchEnv(true, None, true, true, [])),
     L.WriteStep(id, ResponseStream, p.response, true, |p.response|),
     L.FinishStep(id, p.outcome, position, true, true)]
  }

  /** Between two sessions, after `n` of them. */
  predicate Ready(w: World, n: nat) {
    && w.capture && !w.incomplete && !w.overflowed && w.dropped == 0 && w.sessions == map[]
    && |w.observations| == n && |w.interactions| <= n
    && (forall k :: 0 <= k < |w.observations| ==> w.observations[k].owner.Some?)
    && w.registrations.Keys == ALL_CLASSES && (forall c :: c in w.registrations ==> w.registrations[c].coverage.Some?)
    && (forall c :: Position(w, c) <= n)
    && TotalBytes(References(w.artifacts)) <= n * MAX_CHUNK_BYTES
  }

  predicate SameRest(w: World, w': World) {
    && w'.capture == w.capture && w'.incomplete == w.incomplete && w'.overflowed == w.overflowed
    && w'.dropped == w.dropped
    && w'.observations == w.observations && w'.interactions == w.interactions && w'.artifacts == w.artifacts
    && w'.registrations == w.registrations
  }

  /** The one session under way and its files. */
  predicate Under(w: World, id: Id, s: Session, request: Bytes, response: Bytes) {
    w.sessions == map[id := s] && File(w, RequestFile(id)) == request && File(w, ResponseFile(id)) == response
  }

  function At(p: Plan, position: nat, requested: nat, answered: nat, state: SessionState): Session {
    Session(p.parent, p.class_, requested, answered, position, None, state)
  }

  lemma Opens(w: World, n: nat, id: Id, p: Plan, codec: Codec)
    requires Ready(w, n) && n < MAX_EVENTS
    ensures var w' := L.Apply(w, Calls(id, p, Position(w, p.class_))[0], codec);
            && SameRest(w, w') && Under(w', id, At(p, Position(w, p.class_), 0, 0, Requesting), [], [])
            && forall c :: Position(w', c) <= n + 1
  {
    EveryClass(p.class_);
    var w' := L.Apply(w, Calls(id, p, Position(w, p.class_))[0], codec);
    forall c ensures Position(w', c) <= n + 1 {
      assert Position(w, c) <= n;
    }
  }

  lemma EveryClass(class_: ObservationClass)
    ensures class_ in ALL_CLASSES
  {
  }

  lemma Writes(w: World, id: Id, p: Plan, position: nat, codec: Codec)
    requires Fits(p) && Under(w, id, At(p, position, 0, 0, Requesting), [], [])
    ensures var w' := L.Apply(w, Calls(id, p, position)[1], codec);
            && SameRest(w, w') && w'.positions == w.positions
            && Under(w', id, At(p, position, |p.request|, 0, Requesting), p.request, [])
  {
    assert [] + p.request == p.request;
  }

  lemma Dispatches(w: World, id: Id, p: Plan, position: nat, codec: Codec)
    requires Fits(p) && w.capture && Under(w, id, At(p, position, |p.request|, 0, Requesting), p.request, [])
    ensures var w' := L.Apply(w, Calls(id, p, position)[2], codec);
            && SameRest(w, w') && w'.positions == w.positions
            && Under(w', id, At(p, position, |p.request|, 0, Capturing), p.request, [])
  {
  }

  lemma Answers(w: World, id: Id, p: Plan, position: nat, codec: Codec)
    requires Fits(p) && Under(w, id, At(p, position, |p.request|, 0, Capturing), p.request, [])
    ensures var w' := L.Apply(w, Calls(id, p, position)[3], codec);
            && SameRest(w, w') && w'.positions == w.positions
            && Under(w', id, At(p, position, |p.request|, |p.response|, Capturing), p.request, p.response)
  {
    assert [] + p.response == p.response;
  }

  lemma Finishes(w: World, id: Id, p: Plan, position: nat, codec: Codec)
    requires Fits(p) && w.capture && position <= MAX_SESSION_POSITION && p.class_ in w.registrations
    requires |w.observations| < MAX_EVENTS && |w.interactions| <= U16_MAX
    requires Under(w, id, At(p, position, |p.request|, |p.response|, Capturing), p.request, p.response)
    ensures Finish(w, id, p.outcome, position, codec, true, true).result.Ok?
  {
    hide Kept, Staged, Settled, MarkIncomplete;
  }

  /** What holds during a session as it does between two. */
  predicate Going(w: World, n: nat) {
    Ready(w.(sessions := map[], positions := map[]), n) && forall c :: Position(w, c) <= n + 1
  }

  lemma Ends(w: World, n: nat, id: Id, p: Plan, position: nat, codec: Codec)
    requires Fits(p) && position <= n < MAX_EVENTS && Going(w, n)
    requires Under(w, id, At(p, position, |p.request|, |p.response|, Capturing), p.request, p.response)
    ensures Ready(L.Apply(w, Calls(id, p, position)[4], codec), n + 1)
  {
    EveryClass(p.class_);
    Finishes(w, id, p, position, codec);
    FinishReports(w, id, p.outcome, position, codec, true, true);
    FinishedKept(w, id, p.outcome, position, codec, true, true);
    KeptRest(w, id, ExchangeOf(w, id, p.outcome));
    var t := TalkOf(w, id);
    SizesAreTotal(References(w.artifacts), Shown(t, p.outcome));
    ShownFits(t, p.outcome);
    hide Finish, Kept, ExchangeOf, TotalBytes, References, EvidenceAt, Spoken, Sizes, Shown;
    var w' := L.Apply(w, Calls(id, p, position)[4], codec);
    assert w'.sessions == map[];
    forall c ensures Position(w', c) <= n + 1 {
      assert Position(w, c) <= n + 1;
    }
  }

  lemma ShownFits(t: Talk, outcome: Outcome)
    requires |t.response| <= MAX_CHUNK_BYTES
    ensures Sizes(Shown(t, outcome)) <= MAX_CHUNK_BYTES
    ensures |Spoken(t, outcome, 0)| <= 1
  {
    assert [StateOf(t, outcome)][..0] == [];
  }

  lemma KeptRest(w: World, id: Id, x: Exchange)
    requires id in w.sessions && w.sessions[id].class_ in w.registrations
    ensures var w' := Kept(w, id, x);
            && w'.capture == w.capture && w'.incomplete == w.incomplete && w'.overflowed == w.overflowed
            && w'.dropped == w.dropped && w'.registrations == w.registrations && w'.positions == w.positions
            && |w'.interactions| <= |w.interactions| + 1
  {
  }

  lemma GoingOn(w: World, w': World, n: nat)
    requires Going(w, n) && SameRest(w, w') && w'.positions == w.positions
    ensures Going(w', n)
  {
    forall c ensures Position(w', c) <= n + 1 {
      assert Position(w, c) <= n + 1;
    }
  }

  lemma OpensGoing(w: World, w': World, n: nat)
    requires Ready(w, n) && SameRest(w, w') && forall c :: Position(w', c) <= n + 1
    ensures Going(w', n)
  {
  }

  lemma {:induction false} RunConcat(w: World, a: seq<L.Step>, b: seq<L.Step>, codec: Codec)
    ensures L.Run(w, a + b, codec) == L.Run(L.Run(w, a, codec), b, codec)
    decreases |a|
  {
    hide L.Apply;
    if a == [] {
      assert a + b == b;
    } else {
      assert (a + b)[0] == a[0] && (a + b)[1..] == a[1..] + b;
      RunConcat(L.Apply(w, a[0], codec), a[1..], b, codec);
    }
  }

  lemma {:induction false} FollowConcat(d: Diary, a: seq<L.Step>, b: seq<L.Step>)
    ensures Follow(d, a + b) == Follow(Follow(d, a), b)
    decreases |a|
  {
    hide Note;
    if a == [] {
      assert a + b == b;
    } else {
      assert (a + b)[0] == a[0] && (a + b)[1..] == a[1..] + b;
      FollowConcat(Note(d, a[0]), a[1..], b);
    }
  }

  lemma RunFive(w: World, c: seq<L.Step>, codec: Codec)
    requires |c| == 5
    ensures L.Run(w, c, codec)
         == L.Apply(L.Apply(L.Apply(L.Apply(L.Apply(w, c[0], codec), c[1], codec), c[2], codec), c[3], codec), c[4],
                    codec)
  {
    hide L.Apply;
    assert c == [c[0]] + ([c[1]] + ([c[2]] + ([c[3]] + [c[4]])));
    var w1 := L.Apply(w, c[0], codec);
    RunOne(w, c, codec);
    RunOne(w1, c[1..], codec);
    var w2 := L.Apply(w1, c[1], codec);
    RunOne(w2, c[1..][1..], codec);
    var w3 := L.Apply(w2, c[2], codec);
    RunOne(w3, c[1..][1..][1..], codec);
    RunOne(L.Apply(w3, c[3], codec), c[1..][1..][1..][1..], codec);
  }

  lemma RunOne(w: World, c: seq<L.Step>, codec: Codec)
    requires c != []
    ensures L.Run(w, c, codec) == L.Run(L.Apply(w, c[0], codec), c[1..], codec)
    ensures |c| == 1 ==> L.Run(w, c, codec) == L.Apply(w, c[0], codec)
  {
  }

  lemma SessionRuns(w: World, n: nat, id: Id, p: Plan, codec: Codec)
    requires Ready(w, n) && n < MAX_EVENTS && Fits(p)
    ensures Ready(L.Run(w, Calls(id, p, Position(w, p.class_)), codec), n + 1)
  {
    var position := Position(w, p.class_);
    assert position <= n && w.capture;
    var c := Calls(id, p, position);
    var w1 := L.Apply(w, c[0], codec);
    var w2 := L.Apply(w1, c[1], codec);
    var w3 := L.Apply(w2, c[2], codec);
    var w4 := L.Apply(w3, c[3], codec);
    Opens(w, n, id, p, codec);
    OpensGoing(w, w1, n);
    hide Ready, Going, Calls, L.Apply, L.Run, Position, Under, At;
    Writes(w1, id, p, position, codec);
    GoingOn(w1, w2, n);
    Dispatches(w2, id, p, position, codec);
    GoingOn(w2, w3, n);
    Answers(w3, id, p, position, codec);
    GoingOn(w3, w4, n);
    Ends(w4, n, id, p, position, codec);
    RunFive(w, c, codec);
  }

  /** The diary's entry says what was planned. */
  predicate Says(e: Entry, p: Plan) {
    && e.Told? && e.outcome == p.outcome && e.talk.class_ == p.class_ && e.talk.parent == p.parent
    && e.talk.request == p.request && e.talk.response == p.response
  }

  lemma SessionNoted(d: Diary, id: Id, p: Plan, position: nat)
    requires d.live == map[] && Count(d.counts, p.class_) < MAX_SESSION_POSITION
    ensures var d' := Follow(d, Calls(id, p, position));
            && d'.live == map[] && d'.coverage == d.coverage && |d'.log| == |d.log| + 1
            && d'.log[..|d.log|] == d.log && Says(d'.log[|d.log|], p)
            && forall c :: Count(d'.counts, c) <= Count(d.counts, c) + 1
  {
    var c, n := Calls(id, p, position), Count(d.counts, p.class_);
    var t := Talk(p.class_, p.parent, n, p.request, p.response);
    var d1 := Note(d, c[0]);
    assert [] + p.request == p.request && [] + p.response == p.response;
    var d2 := Note(d1, c[1]);
    assert Note(d2, c[2]) == d2;
    var d4 := Note(d2, c[3]);
    assert d4.live == map[id := t];
    var d5 := Note(d4, c[4]);
    assert Removed(map[id := t], id) == map[];
    NotedFive(d, c);
  }

  lemma NotedFive(d: Diary, c: seq<L.Step>)
    requires |c| == 5
    ensures Follow(d, c) == Note(Note(Note(Note(Note(d, c[0]), c[1]), c[2]), c[3]), c[4])
  {
    hide Note;
    NotedOne(d, c);
    var d1 := Note(d, c[0]);
    NotedOne(d1, c[1..]);
    var d2 := Note(d1, c[1]);
    NotedOne(d2, c[1..][1..]);
    var d3 := Note(d2, c[2]);
    NotedOne(d3, c[1..][1..][1..]);
    NotedOne(Note(d3, c[3]), c[1..][1..][1..][1..]);
  }

  lemma NotedOne(d: Diary, c: seq<L.Step>)
    requires c != []
    ensures Follow(d, c) == Follow(Note(d, c[0]), c[1..])
    ensures |c| == 1 ==> Follow(d, c) == Note(d, c[0])
  {
  }

  /** From some entry on the log says what was planned. */
  predicate Tells(before: seq<Entry>, log: seq<Entry>, plans: seq<Plan>) {
    |log| == |before| + |plans| && log[..|before|] == before
    && forall i :: 0 <= i < |plans| ==> Says(log[|before| + i], plans[i])
  }

  lemma TellsOn(before: seq<Entry>, middle: seq<Entry>, log: seq<Entry>, plans: seq<Plan>)
    requires plans != [] && Tells(before, middle, plans[..1]) && Tells(middle, log, plans[1..])
    ensures Tells(before, log, plans)
  {
    assert log[..|before|] == middle[..|before|];
    forall i | 0 <= i < |plans| ensures Says(log[|before| + i], plans[i]) {
      if i == 0 {
        assert log[|before|] == middle[|before|];
      } else {
        assert plans[i] == plans[1..][i - 1];
      }
    }
  }

  lemma SessionTold(d: Diary, n: nat, id: Id, p: Plan, position: nat)
    requires d.live == map[] && (forall c :: Count(d.counts, c) <= n) && n < MAX_EVENTS
    ensures var d' := Follow(d, Calls(id, p, position));
            && d'.live == map[] && d'.coverage == d.coverage && Tells(d.log, d'.log, [p])
            && forall c :: Count(d'.counts, c) <= n + 1
  {
    assert Count(d.counts, p.class_) <= n;
    SessionNoted(d, id, p, position);
    hide Follow, Calls, Says;
    forall c ensures Count(Follow(d, Calls(id, p, position)).counts, c) <= n + 1 {
      assert Count(d.counts, c) <= n;
    }
  }

  lemma {:induction false} PlansRun(w: World, d: Diary, n: nat, plans: seq<Plan>, codec: Codec)
    returns (steps: seq<L.Step>)
    requires Ready(w, n) && n + |plans| <= MAX_EVENTS && d.live == map[] && forall c :: Count(d.counts, c) <= n
    requires forall i :: 0 <= i < |plans| ==> Fits(plans[i])
    ensures Ready(L.Run(w, steps, codec), n + |plans|)
    ensures Follow(d, steps).coverage == d.coverage && Tells(d.log, Follow(d, steps).log, plans)
    decreases |plans|
  {
    steps := [];
    if plans != [] {
      var c := Calls(n, plans[0], Position(w, plans[0].class_));
      SessionRuns(w, n, n, plans[0], codec);
      SessionTold(d, n, n, plans[0], Position(w, plans[0].class_));
      hide Ready, Calls, Tells, Fits, Position, L.Run, Follow;
      var d1 := Follow(d, c);
      var rest := PlansRun(L.Run(w, c, codec), d1, n + 1, plans[1..], codec);
      steps := c + rest;
      RunConcat(w, c, rest, codec);
      FollowConcat(d, c, rest);
      assert plans[..1] == [plans[0]];
      TellsOn(d.log, d1.log, Follow(d, steps).log, plans);
    }
  }

  lemma Covers(registrations: map<ObservationClass, Registration>, coverage: Bytes, codec: Codec)
    requires registrations.Keys == ALL_CLASSES && forall c :: c in registrations ==> registrations[c].coverage.None?
    requires 0 < |coverage| <= MAX_EVIDENCE_BYTES
    ensures Ready(L.Apply(NewWorld(true, registrations, map[]), L.CoverStep(coverage), codec), 0)
  {
  }

  lemma ReadyCloses(w: World, n: nat, env: CloseEnv)
    requires Ready(w, n) && n <= MAX_EVENTS && env == CloseEnv(true, true, true, true)
    ensures Close(w, env).Ok?
  {
    hide References, TotalBytes, Receipts;
    assert n * MAX_CHUNK_BYTES <= MAX_EVENTS * MAX_CHUNK_BYTES;
  }

  /** Up to 1024 sessions of any kind can be captured and closed, and each is recorded as it was planned. */
  lemma HonestCaptureCloses(registrations: map<ObservationClass, Registration>, coverage: Bytes, plans: seq<Plan>,
                            codec: Codec)
    returns (steps: seq<L.Step>)
    requires registrations.Keys == ALL_CLASSES && forall c :: c in registrations ==> registrations[c].coverage.None?
    requires 0 < |coverage| <= MAX_EVIDENCE_BYTES && |plans| <= MAX_EVENTS
    requires forall i :: 0 <= i < |plans| ==> Fits(plans[i])
    ensures Close(L.CaptureRun(registrations, steps, codec), CloseEnv(true, true, true, true)).Ok?
    ensures var d := Follow(BLANK, steps);
            d.coverage == Some(coverage) && |d.log| == |plans| && forall i :: 0 <= i < |plans| ==>
                  Says(d.log[i], plans[i])
  {
    var w0 := NewWorld(true, registrations, map[]);
    Covers(registrations, coverage, codec);
    var cover := L.CoverStep(coverage);
    var d1 := Note(BLANK, cover);
    assert forall c :: Count(d1.counts, c) == 0;
    var rest := PlansRun(L.Apply(w0, cover, codec), d1, 0, plans, codec);
    steps := [cover] + rest;
    hide Ready, L.Apply, Note, Close, Says, Follow, L.Run;
    RunOne(w0, steps, codec);
    NotedOne(BLANK, steps);
    assert steps[1..] == rest;
    ReadyCloses(L.Run(w0, steps, codec), |plans|, CloseEnv(true, true, true, true));
  }
}
