// What a closed capture hands over, told from the calls alone: a diary notes every session, what was
// written to it and how it was finished, and the closed world is read off the diary.

module WorldStory {
  import opened Classes
  import opened MapSums
  import opened Options
  import opened Semantics
  import opened World
  import A = WorldArtifacts
  import L = WorldLaws

  // ---- the diary ------------------------------------------------------------------------------------

  /** One session as its callers saw it. */
  datatype Talk = Talk(class_: ObservationClass, parent: Option<int>, position: nat, request: Bytes, response: Bytes)

  datatype Entry =
    | Told(talk: Talk, outcome: Outcome)
    | LostMark(evidence: Bytes)

  /** The sessions under way, how many each class has opened, what was finished so far, and the sentinel's coverage. */
  datatype Diary = Diary(live: map<Id, Talk>, counts: map<ObservationClass, nat>, log: seq<Entry>,
                         coverage: Option<Bytes>)

  const BLANK: Diary := Diary(map[], map[], [], None)

  function Count(counts: map<ObservationClass, nat>, class_: ObservationClass): nat {
    if class_ in counts then counts[class_] else 0
  }

  function Heard(talk: Talk, stream: Stream, chunk: Bytes): Talk {
    match stream
    case RequestStream => talk.(request := talk.request + chunk)
    case ResponseStream => talk.(response := talk.response + chunk)
  }

  /** The diary takes every call as accepted: after a call that was not, no close succeeds. */
  function Note(d: Diary, step: L.Step): Diary {
    match step
    case OpenStep(id, class_, parent, _, created) =>
      var n := Count(d.counts, class_);
      if created < 2 || n >= MAX_SESSION_POSITION then d
      else d.(live := d.live[id := Talk(class_, parent, n, [], [])], counts := d.counts[class_ := n + 1])
    case WriteStep(id, stream, chunk, _, _) =>
      if id in d.live then d.(live := d.live[id := Heard(d.live[id], stream, chunk)]) else d
    case FinishStep(id, outcome, _, _, _) =>
      if id in d.live then d.(live := Removed(d.live, id), log := d.log + [Told(d.live[id], outcome)]) else d
    case MarkStep(_, _, evidence, _, stored, _) => if stored then d.(log := d.log + [LostMark(evidence)]) else d
    case CoverStep(evidence) => d.(coverage := Some(evidence))
    case _ => d
  }

  function Follow(d: Diary, steps: seq<L.Step>): Diary
    decreases |steps|
  {
    if steps == [] then d else Follow(Note(d, steps[0]), steps[1..])
  }

  // ---- reading it off -------------------------------------------------------------------------------

  /** All classes but these two go to the dependency transcript. */
  predicate ObservesState(class_: ObservationClass) {
    class_ == ObservationClass.Environment || class_ == ObservationClass.Filesystem
  }

  function InteractionAt(t: Talk, outcome: Outcome, sequence: nat): Interaction {
    Interaction(t.parent, outcome, OfBytes(t.request), OfBytes(t.response), sequence, t.position)
  }

  function StateOf(t: Talk, outcome: Outcome): Reference {
    Reference(OfBytes(t.response), |t.response|, StateUri(t.class_, OfBytes(t.request), t.position, outcome))
  }

  /** What one finished session adds to the transcript. */
  function Spoken(t: Talk, outcome: Outcome, sequence: nat): seq<Interaction> {
    if ObservesState(t.class_) then [] else [InteractionAt(t, outcome, sequence)]
  }

  /** What it adds to the references. */
  function Shown(t: Talk, outcome: Outcome): seq<Reference> {
    if ObservesState(t.class_) then [StateOf(t, outcome)] else []
  }

  /** The transcript: the finished dependencies, in the order of their finishes. */
  function Transcript(log: seq<Entry>): seq<Interaction> {
    if log == [] then []
    else
      var before, last := Transcript(log[..|log| - 1]), log[|log| - 1];
      if last.Told? then before + Spoken(last.talk, last.outcome, |before|) else before
  }

  function EvidenceAt(t: Talk, outcome: Outcome, sequence: nat): Digest {
    if ObservesState(t.class_) then OfReference(StateOf(t, outcome))
    else OfInteraction(InteractionAt(t, outcome, sequence))
  }

  function Observed(log: seq<Entry>, adapters: map<ObservationClass, int>): seq<Observation> {
    if log == [] then []
    else
      var init, last := log[..|log| - 1], log[|log| - 1];
      var before := Observed(init, adapters);
      if last.Told? && last.talk.class_ in adapters then
        before + [Observation(last.talk.class_, last.talk.parent,
                              EvidenceAt(last.talk, last.outcome, |Transcript(init)|),
                              |before|, Some(adapters[last.talk.class_]))]
      else before
  }

  /** The evidence of one class's sessions. */
  function EvidenceOfClass(log: seq<Entry>, class_: ObservationClass): seq<Digest> {
    if log == [] then []
    else
      var init, last := log[..|log| - 1], log[|log| - 1];
      EvidenceOfClass(init, class_)
      + (if last.Told? && last.talk.class_ == class_ then [EvidenceAt(last.talk, last.outcome, |Transcript(init)|)]
         else [])
  }

  function Finished(log: seq<Entry>): nat {
    if log == [] then 0 else Finished(log[..|log| - 1]) + (if log[|log| - 1].Told? then 1 else 0)
  }

  /** The references: observed state, and the stored evidence of marks that the recorder lost. */
  function Referenced(log: seq<Entry>): seq<Reference> {
    if log == [] then []
    else
      var init, last := log[..|log| - 1], log[|log| - 1];
      match last
      case Told(talk, outcome) => Referenced(init) + Shown(talk, outcome)
      case LostMark(evidence) =>
        Referenced(init) + [Reference(OfBytes(evidence), |evidence|, UnownedUri(Finished(init), OfBytes(evidence)))]
  }

  function Sizes(references: seq<Reference>): nat {
    if references == [] then 0 else Sizes(references[..|references| - 1]) + references[|references| - 1].size
  }

  /** The closed world, from the registered adapters and the diary. */
  function Closing(adapters: map<ObservationClass, int>, d: Diary): Closed
    requires d.coverage.Some?
  {
    var observations := Observed(d.log, adapters);
    var references := Referenced(d.log);
    Closed(
      Fence(0, false, 0, Finished(d.log), OfObservations(observations), adapters,
            map c | c in adapters :: [OfCoverage(c, d.coverage.value)] + EvidenceOfClass(d.log, c)),
      Checkpoint(references, Sizes(references), |references|),
      Transcript(d.log))
  }

  // ---- diary and world ------------------------------------------------------------------------------

  /** Nothing closes any more. */
  predicate Spoiled(w: World) {
    w.incomplete || w.overflowed || exists k :: 0 <= k < |w.observations| && w.observations[k].owner.None?
  }

  predicate TalkOk(sessions: map<Id, Session>, spool: map<Path, Bytes>, live: map<Id, Talk>, id: Id) {
    && (id in sessions <==> id in live)
    && (id in sessions ==>
          var s, t := sessions[id], live[id];
          && s.class_ == t.class_ && s.parent == t.parent && s.position == t.position
          && RequestFile(id) in spool && spool[RequestFile(id)] == t.request
          && ResponseFile(id) in spool && spool[ResponseFile(id)] == t.response)
  }

  ghost predicate TalksOk(sessions: map<Id, Session>, spool: map<Path, Bytes>, live: map<Id, Talk>) {
    forall id :: TalkOk(sessions, spool, live, id)
  }

  ghost predicate CountsAgree(positions: map<ObservationClass, nat>, counts: map<ObservationClass, nat>) {
    forall c :: Count(positions, c) == Count(counts, c)
  }

  predicate ListsAgree(observations: seq<Observation>, interactions: seq<Interaction>, artifacts: seq<Artifact>,
                       log: seq<Entry>, adapters: map<ObservationClass, int>) {
    observations == Observed(log, adapters) && interactions == Transcript(log)
    && References(artifacts) == Referenced(log)
    && |observations| == Finished(log)
  }

  predicate Registered(registrations: map<ObservationClass, Registration>, adapters: map<ObservationClass, int>,
                       coverage: Option<Bytes>) {
    && registrations.Keys == adapters.Keys
    && forall c :: c in registrations ==>
         registrations[c] == Registration(adapters[c], if coverage.Some? then Some(OfCoverage(c, coverage.value))
                                                       else None)
  }

  ghost predicate Agrees(w: World, d: Diary, adapters: map<ObservationClass, int>) {
    && TalksOk(w.sessions, w.spool, d.live) && CountsAgree(w.positions, d.counts)
    && ListsAgree(w.observations, w.interactions, w.artifacts, d.log, adapters)
    && Registered(w.registrations, adapters, d.coverage)
  }

  // ---- spoiled stays spoiled ------------------------------------------------------------------------

  predicate Grows(w: World, w': World) {
    (w.incomplete ==> w'.incomplete) && (w.overflowed ==> w'.overflowed)
    && w.observations <= w'.observations && w.interactions <= w'.interactions
  }

  lemma StaysSpoiled(w: World, w': World)
    requires Spoiled(w) && Grows(w, w')
    ensures Spoiled(w')
  {
    if !w.incomplete && !w.overflowed {
      var k :| 0 <= k < |w.observations| && w.observations[k].owner.None?;
      assert w'.observations[k].owner.None?;
    }
  }

  lemma SameGrows(w: World, w': World)
    requires A.SameLists(w, w')
    ensures Grows(w, w')
  {
  }

  lemma GrowsOn(a: World, b: World, c: World)
    requires Grows(a, b) && Grows(b, c)
    ensures Grows(a, c)
  {
  }

  lemma StagedGrows(w: World, s: Session, x: Exchange)
    ensures Grows(w, Staged(w, s, x))
  {
  }

  lemma KeptGrows(w: World, id: Id, x: Exchange)
    requires id in w.sessions && w.sessions[id].class_ in w.registrations
    ensures Grows(w, Kept(w, id, x))
  {
  }

  lemma FinishGrows(w: World, id: Id, outcome: Outcome, position: nat, codec: Codec, readable: bool, recorded: bool)
    ensures Grows(w, Finish(w, id, outcome, position, codec, readable, recorded).world)
  {
    if id in w.sessions {
      var x := ExchangeOf(w, id, outcome);
      var lost := MarkIncomplete(Settled(w, id, Lost));
      A.SettledSame(w, id, Lost);
      A.SettledSame(w, id, Replayed);
      SameGrows(w, Settled(w, id, Replayed));
      SameGrows(w, lost);
      hide PairOk, File, Settled, MarkIncomplete, Staged, Kept, CommitFault, Grows, A.SameLists;
      StagedGrows(lost, w.sessions[id], x);
      GrowsOn(w, lost, Staged(lost, w.sessions[id], x));
      if w.sessions[id].class_ in w.registrations {
        KeptGrows(w, id, x);
      }
    }
  }

  lemma MarksGrow(w: World, evidence: Bytes, o: Observation)
    ensures Grows(w, MarkIncomplete(w)) && Grows(w, Dropped(w))
            && Grows(w, MarkLost(w.(reserved := w.reserved + |evidence|)))
    ensures Grows(w, MarkLost(Stored(w, evidence))) && Grows(w, Marked(Stored(w, evidence), o))
  {
  }

  lemma MarkGrows(w: World, class_: ObservationClass, parent: Option<int>, evidence: Bytes, room: bool, stored: bool,
                  recorded: bool)
    ensures Grows(w, MarkUnowned(w, class_, parent, evidence, room, stored, recorded).world)
  {
    MarksGrow(w, evidence, Observation(class_, parent, OfBytes(evidence), |w.observations|, None));
    hide Stored, Marked, Dropped, MarkLost, MarkIncomplete, Grows;
  }

  lemma StepGrows(w: World, step: L.Step, codec: Codec)
    ensures Grows(w, L.Apply(w, step, codec))
  {
    var w' := L.Apply(w, step, codec);
    hide Open, Write, Dispatch, Read, Finish, MarkUnowned, BindCoverage, MarkIncomplete, Settled, Grows, A.SameLists;
    match step
    case OpenStep(id, class_, parent, semantic, created) =>
      A.OpenSame(w, id, class_, parent, semantic, created);
      SameGrows(w, w');
    case WriteStep(id, stream, chunk, room, appended) =>
      A.WriteSame(w, id, stream, chunk, room, appended);
      SameGrows(w, w');
    case DispatchStep(id, env) => A.DispatchSame(w, id, codec, env); SameGrows(w, w');
    case ReadStep(id, readable, wanted) => A.ReadSame(w, id, readable, wanted); SameGrows(w, w');
    case FinishStep(id, outcome, position, readable, recorded) =>
      FinishGrows(w, id, outcome, position, codec, readable, recorded);
    case AbandonStep(id) => AbandonGrows(w, id);
    case MarkStep(class_, parent, evidence, room, stored, recorded) =>
      MarkGrows(w, class_, parent, evidence, room, stored, recorded);
    case CoverStep(evidence) => A.CoverSame(w, evidence); SameGrows(w, w');
    case InvalidateStep => MarksGrow(w, [], Observation(Clock, None, OfBytes([]), 0, None));
  }

  lemma AbandonGrows(w: World, id: Id)
    ensures Grows(w, Abandon(w, id).world)
  {
    if id in w.sessions {
      A.SettledSame(w, id, Lost);
    }
    hide Settled, MarkIncomplete;
  }

  // ---- each call keeps them together ----------------------------------------------------------------

  lemma ChangesOne(sessions: map<Id, Session>, spool: map<Path, Bytes>, live: map<Id, Talk>,
                   sessions': map<Id, Session>,
                   spool': map<Path, Bytes>, live': map<Id, Talk>, id: Id)
    requires TalksOk(sessions, spool, live) && TalkOk(sessions', spool', live', id)
    requires forall x :: x != id ==>
               (x in sessions <==> x in sessions') && (x in sessions ==> sessions'[x] == sessions[x])
    requires forall x :: x != id ==> (x in live <==> x in live') && (x in live ==> live'[x] == live[x])
    requires forall p :: p in spool && p != RequestFile(id) && p != ResponseFile(id) ==>
               p in spool' && spool'[p] == spool[p]
    ensures TalksOk(sessions', spool', live')
  {
    forall x ensures TalkOk(sessions', spool', live', x) {
      assert TalkOk(sessions, spool, live, x);
    }
  }

  lemma TouchAgrees(w: World, d: Diary, adapters: map<ObservationClass, int>, id: Id, created: nat)
    requires Agrees(w, d, adapters) && id !in w.sessions
    ensures Agrees(Touch(w, id, created), d, adapters)
  {
    var w' := Touch(w, id, created);
    assert TalkOk(w.sessions, w.spool, d.live, id);
    ChangesOne(w.sessions, w.spool, d.live, w'.sessions, w'.spool, d.live, id);
    hide TalksOk, ListsAgree, Registered, CountsAgree;
  }

  lemma OpenedAgrees(w: World, d: Diary, adapters: map<ObservationClass, int>, id: Id, s: Session)
    requires Agrees(w, d, adapters) && id !in w.sessions
    requires s.position == Count(d.counts, s.class_)
    ensures Agrees(Opened(Touch(w, id, 2), id, s),
                   d.(live := d.live[id := Talk(s.class_, s.parent, s.position, [], [])],
                      counts := d.counts[s.class_ := s.position + 1]), adapters)
  {
    var w1 := Touch(w, id, 2);
    var w' := Opened(w1, id, s);
    TouchAgrees(w, d, adapters, id, 2);
    var live := d.live[id := Talk(s.class_, s.parent, s.position, [], [])];
    assert TalkOk(w'.sessions, w'.spool, live, id);
    ChangesOne(w1.sessions, w1.spool, d.live, w'.sessions, w'.spool, live, id);
    forall c ensures Count(w'.positions, c) == Count(d.counts[s.class_ := s.position + 1], c) {
      assert Count(w.positions, c) == Count(d.counts, c);
    }
    hide TalksOk, ListsAgree, Registered, CountsAgree;
  }

  /** An open spoils the world, or the identifier is free and the session enters at its position. */
  lemma OpenCases(w: World, id: Id, class_: ObservationClass, parent: Option<int>, semantic: bool, created: nat)
    ensures var w', n := Open(w, id, class_, parent, semantic, created).world, Position(w, class_);
            || w'.incomplete
            || (id !in w.sessions
                && if created < 2 then w' == Touch(w, id, created)
                   else if n >= MAX_SESSION_POSITION then
                     w' == Touch(w, id, created).(positions := w.positions[class_ := n])
                   else w' == Opened(Touch(w, id, created), id, NewSession(parent, class_, n, semantic)))
  {
    hide Touch, Opened, ContractFor, Position;
  }

  function NewSession(parent: Option<int>, class_: ObservationClass, position: nat, semantic: bool): Session {
    Session(parent, class_, 0, 0, position, if semantic then Some(ContractFor(class_)) else None, Requesting)
  }

  lemma TouchIs(w: World, id: Id, created: nat)
    ensures Touch(w, id, created).positions == w.positions
            && (created >= 2 ==> Touch(w, id, created) == Touch(w, id, 2))
  {
  }

  /** An open succeeds iff nothing stands against it; its answer is the number of sessions its class had before. */
  lemma OpenAnswers(w: World, d: Diary, adapters: map<ObservationClass, int>, id: Id, class_: ObservationClass,
                    parent: Option<int>, semantic: bool, created: nat)
    requires Agrees(w, d, adapters) && w.capture
    ensures var result, n := Open(w, id, class_, parent, semantic, created).result, Count(d.counts, class_);
            && (result.Ok? <==> class_ in adapters && id !in d.live && |w.sessions| < MAX_SESSIONS && created >= 2
                                && n < MAX_SESSION_POSITION)
            && (result.Ok? ==> result.value == n)
  {
    assert TalkOk(w.sessions, w.spool, d.live, id);
    assert Position(w, class_) == Count(w.positions, class_);
    hide TalksOk, ListsAgree, CountsAgree, Touch, Opened, ContractFor, Position, Count;
  }

  lemma OpenAgrees(w: World, d: Diary, adapters: map<ObservationClass, int>, id: Id, class_: ObservationClass,
                   parent: Option<int>, semantic: bool, created: nat)
    requires Agrees(w, d, adapters)
    ensures var w' := Open(w, id, class_, parent, semantic, created).world;
            Spoiled(w') || Agrees(w', Note(d, L.OpenStep(id, class_, parent, semantic, created)), adapters)
  {
    var n := Count(d.counts, class_);
    assert Position(w, class_) == n by { assert Position(w, class_) == Count(w.positions, class_); }
    OpenCases(w, id, class_, parent, semantic, created);
    TouchIs(w, id, created);
    if id !in w.sessions {
      TouchAgrees(w, d, adapters, id, created);
      SamePosition(Touch(w, id, created), d, adapters, class_);
      OpenedAgrees(w, d, adapters, id, NewSession(parent, class_, n, semantic));
    }
    hide Agrees, Open, Touch, Opened, ContractFor, Position, Count;
  }

  lemma SamePosition(w: World, d: Diary, adapters: map<ObservationClass, int>, class_: ObservationClass)
    requires Agrees(w, d, adapters)
    ensures Agrees(w.(positions := w.positions[class_ := Count(d.counts, class_)]), d, adapters)
  {
    assert CountsAgree(w.positions[class_ := Count(d.counts, class_)], d.counts);
    hide TalksOk, ListsAgree, Registered, CountsAgree;
  }

  lemma UpdateAgrees(w: World, d: Diary, adapters: map<ObservationClass, int>, id: Id, stream: Stream, chunk: Bytes)
    requires Agrees(w, d, adapters) && id in w.sessions
    ensures id in d.live
    ensures Agrees(Update(w, id, Added(w.sessions[id], stream, |chunk|), StreamFile(id, stream),
                          File(w, StreamFile(id, stream)) + chunk, |chunk|),
                   d.(live := d.live[id := Heard(d.live[id], stream, chunk)]), adapters)
  {
    assert TalkOk(w.sessions, w.spool, d.live, id);
    var w' := Update(w, id, Added(w.sessions[id], stream, |chunk|), StreamFile(id, stream),
                     File(w, StreamFile(id, stream)) + chunk, |chunk|);
    var live := d.live[id := Heard(d.live[id], stream, chunk)];
    assert TalkOk(w'.sessions, w'.spool, live, id);
    ChangesOne(w.sessions, w.spool, d.live, w'.sessions, w'.spool, live, id);
    hide TalksOk, ListsAgree, Registered, CountsAgree;
  }

  lemma WriteAgrees(w: World, d: Diary, adapters: map<ObservationClass, int>, id: Id, stream: Stream, chunk: Bytes,
                    room: bool,
                    appended: nat)
    requires Agrees(w, d, adapters)
    ensures var w' := Write(w, id, stream, chunk, room, appended).world;
            Spoiled(w') || Agrees(w', Note(d, L.WriteStep(id, stream, chunk, room, appended)), adapters)
  {
    assert TalkOk(w.sessions, w.spool, d.live, id);
    assert Overflow(w, id).incomplete;
    if id in w.sessions {
      UpdateAgrees(w, d, adapters, id, stream, chunk);
    }
    hide Agrees, Update, Overflow, File;
  }

  lemma SetAgrees(w: World, d: Diary, adapters: map<ObservationClass, int>, id: Id, state: SessionState)
    requires Agrees(w, d, adapters) && id in w.sessions
    ensures Agrees(SetSession(w, id, w.sessions[id].(state := state)), d, adapters)
  {
    var w' := SetSession(w, id, w.sessions[id].(state := state));
    assert TalkOk(w.sessions, w.spool, d.live, id);
    ChangesOne(w.sessions, w.spool, d.live, w'.sessions, w'.spool, d.live, id);
    hide TalksOk, ListsAgree, Registered, CountsAgree;
  }

  lemma DispatchAgrees(w: World, d: Diary, adapters: map<ObservationClass, int>, id: Id, codec: Codec, env: DispatchEnv)
    requires Agrees(w, d, adapters) && w.capture
    ensures var w' := Dispatch(w, id, codec, env).world; Spoiled(w') || Agrees(w', d, adapters)
  {
    if id in w.sessions {
      SetAgrees(w, d, adapters, id, Capturing);
    }
    hide Agrees, RequestOk, File, SetSession;
  }

  lemma ReadAgrees(w: World, d: Diary, adapters: map<ObservationClass, int>, id: Id, readable: bool, wanted: nat)
    requires Agrees(w, d, adapters)
    ensures Agrees(Read(w, id, readable, wanted).world, d, adapters)
  {
    var w' := Read(w, id, readable, wanted).world;
    if id in w.sessions && w' != w {
      SetAgrees(w, d, adapters, id, w'.sessions[id].state);
    }
    hide Agrees, File, ReadCount;
  }

  // ---- a finish -------------------------------------------------------------------------------------

  lemma {:induction false} ReferencesAppend(a: seq<Artifact>, b: seq<Artifact>)
    ensures References(a + b) == References(a) + References(b)
  {
    A.ReferencesAppend(a, b);
  }

  /** One more finished session: what each list gains. */
  lemma LogTold(log: seq<Entry>, adapters: map<ObservationClass, int>, t: Talk, outcome: Outcome)
    requires t.class_ in adapters
    ensures var log' := log + [Told(t, outcome)]; var before := Observed(log, adapters);
            && Observed(log', adapters)
                 == before + [Observation(t.class_, t.parent, EvidenceAt(t, outcome, |Transcript(log)|), |before|,
                                          Some(adapters[t.class_]))]
            && Transcript(log') == Transcript(log) + Spoken(t, outcome, |Transcript(log)|)
            && Referenced(log') == Referenced(log) + Shown(t, outcome)
            && Finished(log') == Finished(log) + 1
  {
    assert (log + [Told(t, outcome)])[..|log|] == log;
  }

  lemma CommitPushes(w: World, id: Id, x: Exchange, t: Talk, outcome: Outcome)
    requires id in w.sessions && w.sessions[id].class_ in w.registrations
    requires x == Exchange(id, t.parent, t.request, t.response, outcome)
    requires w.sessions[id].class_ == t.class_ && w.sessions[id].parent == t.parent
             && w.sessions[id].position == t.position
    ensures var w' := Kept(w, id, x);
            && w'.observations == w.observations
                 + [Observation(t.class_, t.parent, EvidenceAt(t, outcome, |w.interactions|), |w.observations|,
                                Some(w.registrations[t.class_].adapter))]
            && w'.interactions == w.interactions + Spoken(t, outcome, |w.interactions|)
            && References(w'.artifacts) == References(w.artifacts) + Shown(t, outcome)
            && w'.sessions == Removed(w.sessions, id) && w'.spool == w.spool && w'.positions == w.positions
            && w'.registrations == w.registrations
  {
    var more := NewArtifacts(w.sessions[id], x);
    assert References(more) == Shown(t, outcome) by {
      A.ReferencesOfSession(SlotOf(w.sessions[id]), x);
    }
    ReferencesAppend(w.artifacts, more);
  }

  lemma KeptAgrees(w: World, d: Diary, adapters: map<ObservationClass, int>, id: Id, outcome: Outcome)
    requires Agrees(w, d, adapters) && id in w.sessions && w.sessions[id].class_ in w.registrations
    ensures id in d.live
    ensures Agrees(Kept(w, id, ExchangeOf(w, id, outcome)),
                   d.(live := Removed(d.live, id), log := d.log + [Told(d.live[id], outcome)]), adapters)
  {
    assert TalkOk(w.sessions, w.spool, d.live, id);
    var t, x := d.live[id], ExchangeOf(w, id, outcome);
    CommitPushes(w, id, x, t, outcome);
    LogTold(d.log, adapters, t, outcome);
    var w' := Kept(w, id, x);
    assert TalksOk(w'.sessions, w'.spool, Removed(d.live, id)) by {
      ChangesOne(w.sessions, w.spool, d.live, Removed(w.sessions, id), w.spool, Removed(d.live, id), id);
    }
    hide TalksOk, CountsAgree, Kept, ExchangeOf, Observed, Transcript, Referenced, Finished, EvidenceAt, InteractionAt,
        StateOf;
  }

  /** In capture a finish leaves the world alone, spoils it, or commits the session. */
  lemma FinishCases(w: World, id: Id, outcome: Outcome, position: nat, codec: Codec, readable: bool, recorded: bool)
    requires w.capture
    ensures var w' := Finish(w, id, outcome, position, codec, readable, recorded).world;
            if id !in w.sessions then w' == w
            else w'.incomplete || (w.sessions[id].class_ in w.registrations
                                   && w' == Kept(w, id, ExchangeOf(w, id, outcome)))
  {
    if id in w.sessions {
      var lost := MarkIncomplete(Settled(w, id, Lost));
      assert lost.incomplete;
      hide Settled, MarkIncomplete, NewArtifacts, NewInteractions;
      assert Staged(lost, w.sessions[id], ExchangeOf(w, id, outcome)).incomplete;
    }
    hide PairOk, File, Kept, Staged, Settled, MarkIncomplete, CommitFault, ExchangeOf;
  }

  lemma FinishAgrees(w: World, d: Diary, adapters: map<ObservationClass, int>, id: Id, outcome: Outcome, position: nat,
                     codec: Codec, readable: bool, recorded: bool)
    requires Agrees(w, d, adapters) && w.capture
    ensures var w' := Finish(w, id, outcome, position, codec, readable, recorded).world;
            Spoiled(w') || Agrees(w', Note(d, L.FinishStep(id, outcome, position, readable, recorded)), adapters)
  {
    assert TalkOk(w.sessions, w.spool, d.live, id);
    FinishCases(w, id, outcome, position, codec, readable, recorded);
    if id in w.sessions && w.sessions[id].class_ in w.registrations {
      KeptAgrees(w, d, adapters, id, outcome);
    }
    hide Agrees, Finish, Kept, ExchangeOf;
  }

  // ---- marks and coverage ---------------------------------------------------------------------------

  lemma LogMark(log: seq<Entry>, adapters: map<ObservationClass, int>, evidence: Bytes)
    ensures var log' := log + [LostMark(evidence)];
            && Observed(log', adapters) == Observed(log, adapters) && Transcript(log') == Transcript(log)
            && Referenced(log')
                 == Referenced(log) + [Reference(OfBytes(evidence), |evidence|,
                                                 UnownedUri(Finished(log), OfBytes(evidence)))]
            && Finished(log') == Finished(log)
  {
    assert (log + [LostMark(evidence)])[..|log|] == log;
  }

  lemma StoredAgrees(w: World, d: Diary, adapters: map<ObservationClass, int>, evidence: Bytes)
    requires Agrees(w, d, adapters)
    ensures Agrees(MarkLost(Stored(w, evidence)), d.(log := d.log + [LostMark(evidence)]), adapters)
  {
    var w' := MarkLost(Stored(w, evidence));
    var k := |w.observations|;
    var r := Reference(OfBytes(evidence), |evidence|, UnownedUri(k, OfBytes(evidence)));
    LogMark(d.log, adapters, evidence);
    ReferencesAppend(w.artifacts, [Artifact(UnownedFile(k), Some(r))]);
    assert [Artifact(UnownedFile(k), Some(r))][1..] == [];
    forall id ensures TalkOk(w'.sessions, w'.spool, d.live, id) {
      assert TalkOk(w.sessions, w.spool, d.live, id);
    }
    hide CountsAgree, Observed, Transcript, Referenced, Finished;
  }

  lemma UnstoredAgrees(w: World, d: Diary, adapters: map<ObservationClass, int>, evidence: Bytes)
    requires Agrees(w, d, adapters)
    ensures Agrees(MarkLost(w.(reserved := w.reserved + |evidence|)), d, adapters)
  {
    hide TalksOk, ListsAgree, Registered, CountsAgree;
  }

  lemma MarkedSpoils(w: World, evidence: Bytes, o: Observation)
    requires o.owner.None?
    ensures Spoiled(Marked(Stored(w, evidence), o)) && Spoiled(Dropped(w)) && Spoiled(MarkIncomplete(w))
  {
    assert Marked(Stored(w, evidence), o).observations[|w.observations|] == o;
  }

  lemma MarkAgrees(w: World, d: Diary, adapters: map<ObservationClass, int>, class_: ObservationClass,
                   parent: Option<int>,
                   evidence: Bytes, room: bool, stored: bool, recorded: bool)
    requires Agrees(w, d, adapters)
    ensures var w' := MarkUnowned(w, class_, parent, evidence, room, stored, recorded).world;
            Spoiled(w') || Agrees(w', Note(d, L.MarkStep(class_, parent, evidence, room, stored, recorded)), adapters)
  {
    StoredAgrees(w, d, adapters, evidence);
    UnstoredAgrees(w, d, adapters, evidence);
    MarkedSpoils(w, evidence, Observation(class_, parent, OfBytes(evidence), |w.observations|, None));
    hide Agrees, Spoiled, Stored, Marked, Dropped, MarkLost, MarkIncomplete;
  }

  lemma CoverRegisters(registrations: map<ObservationClass, Registration>, adapters: map<ObservationClass, int>,
                       coverage: Option<Bytes>, evidence: Bytes)
    requires Registered(registrations, adapters, coverage)
    ensures Registered(map c | c in registrations ::
                         registrations[c].(coverage := Some(OfCoverage(c, evidence))), adapters,
                       Some(evidence))
  {
  }

  lemma CoverAgrees(w: World, d: Diary, adapters: map<ObservationClass, int>, evidence: Bytes)
    requires Agrees(w, d, adapters)
    ensures var w' := BindCoverage(w, evidence).world;
            Spoiled(w') || Agrees(w', Note(d, L.CoverStep(evidence)), adapters)
  {
    CoverRegisters(w.registrations, adapters, d.coverage, evidence);
    assert Spoiled(MarkIncomplete(w));
    hide TalksOk, ListsAgree, CountsAgree, Registered, Spoiled, MarkIncomplete;
  }

  // ---- every run ------------------------------------------------------------------------------------

  lemma StepAgrees(w: World, d: Diary, adapters: map<ObservationClass, int>, step: L.Step, codec: Codec)
    requires w.capture && (Spoiled(w) || Agrees(w, d, adapters))
    ensures var w' := L.Apply(w, step, codec); w'.capture && (Spoiled(w') || Agrees(w', Note(d, step), adapters))
  {
    hide Open, Write, Dispatch, Read, Finish, MarkUnowned, BindCoverage, Settled, Spoiled, Agrees, Grows;
    L.StepKeepsMode(w, step, codec);
    if Spoiled(w) {
      StepGrows(w, step, codec);
      StaysSpoiled(w, L.Apply(w, step, codec));
    } else {
      match step
      case OpenStep(id, class_, parent, semantic, created) =>
        OpenAgrees(w, d, adapters, id, class_, parent, semantic, created);
      case WriteStep(id, stream, chunk, room, appended) =>
        WriteAgrees(w, d, adapters, id, stream, chunk, room, appended);
      case DispatchStep(id, env) => DispatchAgrees(w, d, adapters, id, codec, env);
      case ReadStep(id, readable, wanted) => ReadAgrees(w, d, adapters, id, readable, wanted);
      case FinishStep(id, outcome, position, readable, recorded) =>
        FinishAgrees(w, d, adapters, id, outcome, position, codec, readable, recorded);
      case AbandonStep(id) => AbandonAgrees(w, d, adapters, id);
      case MarkStep(class_, parent, evidence, room, stored, recorded) =>
        MarkAgrees(w, d, adapters, class_, parent, evidence, room, stored, recorded);
      case CoverStep(evidence) => CoverAgrees(w, d, adapters, evidence);
      case InvalidateStep => MarkedSpoils(w, [], Observation(Clock, None, OfBytes([]), 0, None));
    }
  }

  lemma AbandonAgrees(w: World, d: Diary, adapters: map<ObservationClass, int>, id: Id)
    requires Agrees(w, d, adapters)
    ensures var w' := Abandon(w, id).world; Spoiled(w') || Agrees(w', d, adapters)
  {
    hide Agrees, Settled;
  }

  lemma {:induction false} RunAgrees(w: World, d: Diary, adapters: map<ObservationClass, int>, steps: seq<L.Step>,
                                     codec: Codec)
    requires w.capture && (Spoiled(w) || Agrees(w, d, adapters))
    ensures var w' := L.Run(w, steps, codec); Spoiled(w') || Agrees(w', Follow(d, steps), adapters)
    decreases |steps|
  {
    hide Spoiled, Agrees, L.Apply, Note;
    if steps != [] {
      StepAgrees(w, d, adapters, steps[0], codec);
      RunAgrees(L.Apply(w, steps[0], codec), Note(d, steps[0]), adapters, steps[1..], codec);
    }
  }

  // ---- the close ------------------------------------------------------------------------------------

  function Adapters(registrations: map<ObservationClass, Registration>): map<ObservationClass, int> {
    map c | c in registrations :: registrations[c].adapter
  }

  lemma {:induction false} SizesAreTotal(a: seq<Reference>, b: seq<Reference>)
    ensures TotalBytes(a + b) == TotalBytes(a) + Sizes(b)
    decreases |b|
  {
    if b == [] {
      assert a + b == a;
    } else {
      var init, last := b[..|b| - 1], b[|b| - 1];
      assert a + b == (a + init) + [last];
      SizesAreTotal(a, init);
      TotalAppend(a + init, last);
    }
  }

  lemma {:induction false} TotalAppend(a: seq<Reference>, r: Reference)
    ensures TotalBytes(a + [r]) == TotalBytes(a) + r.size
    decreases |a|
  {
    if a == [] {
      assert [r][1..] == [];
    } else {
      assert (a + [r])[1..] == a[1..] + [r];
      TotalAppend(a[1..], r);
    }
  }

  lemma {:induction false} ClassEvidenceIs(log: seq<Entry>, adapters: map<ObservationClass, int>,
                                           class_: ObservationClass)
    requires class_ in adapters
    ensures ClassEvidence(Observed(log, adapters), class_) == EvidenceOfClass(log, class_)
    decreases |log|
  {
    if log != [] {
      var init, last := log[..|log| - 1], log[|log| - 1];
      ClassEvidenceIs(init, adapters, class_);
      var all := Observed(log, adapters);
      if last.Told? && last.talk.class_ in adapters {
        assert all[..|all| - 1] == Observed(init, adapters);
      }
    }
  }

  lemma ReceiptsAre(w: World, d: Diary, adapters: map<ObservationClass, int>)
    requires ListsAgree(w.observations, w.interactions, w.artifacts, d.log, adapters)
    requires Registered(w.registrations, adapters, d.coverage) && d.coverage.Some?
    ensures Receipts(w.registrations, w.observations)
         == map c | c in adapters :: [OfCoverage(c, d.coverage.value)] + EvidenceOfClass(d.log, c)
    ensures (map c | c in w.registrations :: w.registrations[c].adapter) == adapters
  {
    hide Observed, ClassEvidence, EvidenceOfClass;
    forall c | c in adapters ensures ClassEvidence(w.observations, c) == EvidenceOfClass(d.log, c) {
      ClassEvidenceIs(d.log, adapters, c);
    }
  }

  /** A close hands over the counters, the receipts, the references and the transcript of the world. */
  lemma CloseParts(w: World, env: CloseEnv)
    requires Close(w, env).Ok?
    ensures Clock in w.registrations && w.registrations[Clock].coverage.Some?
    ensures var c := Close(w, env).value;
            && c.transcript == w.interactions
            && c.checkpoint == Checkpoint(References(w.artifacts), TotalBytes(References(w.artifacts)),
                                          |References(w.artifacts)|)
            && c.fence == Fence(0, false, 0, |w.observations|, OfObservations(w.observations),
                                map c | c in w.registrations :: w.registrations[c].adapter,
                                Receipts(w.registrations, w.observations))
  {
    assert Clock in ALL_CLASSES;
    hide Receipts, References, TotalBytes;
  }

  lemma CloseIs(w: World, d: Diary, adapters: map<ObservationClass, int>, env: CloseEnv)
    requires Agrees(w, d, adapters) && Close(w, env).Ok?
    ensures d.coverage.Some? && Close(w, env).value == Closing(adapters, d)
  {
    CloseParts(w, env);
    ReceiptsAre(w, d, adapters);
    SizesAreTotal([], Referenced(d.log));
    assert [] + Referenced(d.log) == Referenced(d.log);
    hide Close, Receipts, References, TotalBytes, Observed, Transcript, Referenced, Finished, EvidenceOfClass, TalksOk,
      CountsAgree;
  }

  /**
   * Whatever calls a capture sees and however storage and recorder behave: what a successful close hands over
   * is exactly what the diary of the calls says. Every field is read off the calls' arguments.
   */
  lemma ClosedIsTheDiary(registrations: map<ObservationClass, Registration>, steps: seq<L.Step>, codec: Codec,
                         env: CloseEnv)
    requires forall c :: c in registrations ==> registrations[c].coverage.None?
    requires Close(L.CaptureRun(registrations, steps, codec), env).Ok?
    ensures Follow(BLANK, steps).coverage.Some?
    ensures Close(L.CaptureRun(registrations, steps, codec), env).value
            == Closing(Adapters(registrations), Follow(BLANK, steps))
  {
    var w := L.CaptureRun(registrations, steps, codec);
    var w0 := NewWorld(true, registrations, map[]);
    assert Agrees(w0, BLANK, Adapters(registrations));
    assert !Spoiled(w);
    hide Spoiled, Agrees, L.Run, Follow, Close;
    RunAgrees(w0, BLANK, Adapters(registrations), steps, codec);
    CloseIs(w, Follow(BLANK, steps), Adapters(registrations), env);
  }

  /** And every session that was opened is in it: none is still under way. */
  lemma ClosedLeavesNothingOpen(registrations: map<ObservationClass, Registration>, steps: seq<L.Step>, codec: Codec,
                                env: CloseEnv)
    requires forall c :: c in registrations ==> registrations[c].coverage.None?
    requires Close(L.CaptureRun(registrations, steps, codec), env).Ok?
    ensures Follow(BLANK, steps).live == map[]
  {
    var w := L.CaptureRun(registrations, steps, codec);
    var w0 := NewWorld(true, registrations, map[]);
    assert Agrees(w0, BLANK, Adapters(registrations));
    assert !Spoiled(w) && w.sessions == map[];
    hide Spoiled, L.Run, Follow, Close;
    RunAgrees(w0, BLANK, Adapters(registrations), steps, codec);
    forall id ensures id !in Follow(BLANK, steps).live {
      assert TalkOk(w.sessions, w.spool, Follow(BLANK, steps).live, id);
    }
  }

  // ---- one finish, in any run -----------------------------------------------------------------------

  /** The session as its files and its registration show it. */
  function TalkOf(w: World, id: Id): Talk
    requires id in w.sessions
  {
    var s := w.sessions[id];
    Talk(s.class_, s.parent, s.position, File(w, RequestFile(id)), File(w, ResponseFile(id)))
  }

  /** A finish that succeeds in capture records exactly this outcome of exactly these bytes. */
  lemma FinishReports(w: World, id: Id, outcome: Outcome, position: nat, codec: Codec, readable: bool, recorded: bool)
    requires w.capture && Finish(w, id, outcome, position, codec, readable, recorded).result.Ok?
    ensures id in w.sessions && w.sessions[id].position == position && w.sessions[id].class_ in w.registrations
    ensures var w', t := Finish(w, id, outcome, position, codec, readable, recorded).world, TalkOf(w, id);
            && w'.observations == w.observations
                 + [Observation(t.class_, t.parent, EvidenceAt(t, outcome, |w.interactions|), |w.observations|,
                                Some(w.registrations[t.class_].adapter))]
            && w'.interactions == w.interactions + Spoken(t, outcome, |w.interactions|)
            && References(w'.artifacts) == References(w.artifacts) + Shown(t, outcome)
            && w'.sessions == Removed(w.sessions, id)
  {
    FinishedKept(w, id, outcome, position, codec, readable, recorded);
    CommitPushes(w, id, ExchangeOf(w, id, outcome), TalkOf(w, id), outcome);
    hide Finish, Kept, References, EvidenceAt, InteractionAt, StateOf;
  }

  lemma FinishedKept(w: World, id: Id, outcome: Outcome, position: nat, codec: Codec, readable: bool, recorded: bool)
    requires w.capture && Finish(w, id, outcome, position, codec, readable, recorded).result.Ok?
    ensures id in w.sessions && w.sessions[id].position == position && w.sessions[id].class_ in w.registrations
    ensures Finish(w, id, outcome, position, codec, readable, recorded).world == Kept(w, id, ExchangeOf(w, id, outcome))
  {
    hide PairOk, File, Kept, Staged, Settled, MarkIncomplete, CommitFault, ExchangeOf;
  }

  /** A mark that succeeds records exactly this evidence for this class and parent, without an owner. */
  lemma MarkReports(w: World, class_: ObservationClass, parent: Option<int>, evidence: Bytes, room: bool, stored: bool,
                    recorded: bool)
    requires MarkUnowned(w, class_, parent, evidence, room, stored, recorded).result.Ok?
    ensures var w', k := MarkUnowned(w, class_, parent, evidence, room, stored, recorded).world, |w.observations|;
            && w.capture && k < MAX_EVENTS && 0 < |evidence| <= MAX_ARTIFACT_BYTES && room && stored && recorded
            && w'.observations == w.observations + [Observation(class_, parent, OfBytes(evidence), k, None)]
            && File(w', UnownedFile(k)) == evidence && w'.interactions == w.interactions
            && w'.artifacts == w.artifacts
                 + [Artifact(UnownedFile(k),
                             Some(Reference(OfBytes(evidence), |evidence|, UnownedUri(k, OfBytes(evidence)))))]
  {
  }

  lemma {:induction false} RunGrows(w: World, steps: seq<L.Step>, codec: Codec)
    ensures Grows(w, L.Run(w, steps, codec))
    decreases |steps|
  {
    hide L.Apply;
    if steps != [] {
      StepGrows(w, steps[0], codec);
      RunGrows(L.Apply(w, steps[0], codec), steps[1..], codec);
    }
  }

  lemma {:induction false} RunSplits(w: World, steps: seq<L.Step>, codec: Codec, i: nat)
    requires i < |steps|
    ensures L.Run(w, steps, codec)
            == L.Run(L.Apply(L.Run(w, steps[..i], codec), steps[i], codec), steps[i + 1..], codec)
    decreases |steps|
  {
    hide L.Apply;
    if i == 0 {
      assert steps[..0] == [];
    } else {
      RunSplits(L.Apply(w, steps[0], codec), steps[1..], codec, i - 1);
      assert steps[1..][..i - 1] == steps[..i][1..] && steps[1..][i..] == steps[i + 1..] && steps[..i][0] == steps[0];
      assert steps[1..][i - 1] == steps[i];
    }
  }

  /** Whatever comes later, each successful finish of a run stays recorded with the outcome of that very call. */
  lemma EveryFinishStands(registrations: map<ObservationClass, Registration>, steps: seq<L.Step>, codec: Codec, i: nat)
    requires i < |steps| && steps[i].FinishStep?
    requires var before := L.CaptureRun(registrations, steps[..i], codec); var f := steps[i];
             Finish(before, f.id, f.outcome, f.position, codec, f.readable, f.recorded).result.Ok?
    ensures var before, w := L.CaptureRun(registrations, steps[..i], codec), L.CaptureRun(registrations, steps, codec);
            && steps[i].id in before.sessions && before.sessions[steps[i].id].class_ in before.registrations
            && var t, k, j := TalkOf(before, steps[i].id), |before.observations|, |before.interactions|;
            && k < |w.observations|
            && w.observations[k] == Observation(t.class_, t.parent, EvidenceAt(t, steps[i].outcome, j), k,
                                                Some(before.registrations[t.class_].adapter))
            && (!ObservesState(t.class_) ==> j < |w.interactions|
                                             && w.interactions[j] == InteractionAt(t, steps[i].outcome, j))
  {
    var w0, f := NewWorld(true, registrations, map[]), steps[i];
    var before := L.Run(w0, steps[..i], codec);
    L.RunKeepsMode(w0, steps[..i], codec);
    FinishReports(before, f.id, f.outcome, f.position, codec, f.readable, f.recorded);
    RunSplits(w0, steps, codec, i);
    hide L.Run, Finish, EvidenceAt, InteractionAt;
    RunGrows(L.Apply(before, f, codec), steps[i + 1..], codec);
  }

  // ---- reading a recorded response back -------------------------------------------------------------

  datatype Try = Try(readable: bool, wanted: nat)

  /** Reads of one session, one after another; what the successful ones return is put together. */
  function ReadBack(w: World, id: Id, tries: seq<Try>): (World, Bytes)
    decreases |tries|
  {
    if tries == [] then (w, [])
    else
      var reply := Read(w, id, tries[0].readable, tries[0].wanted);
      var rest := ReadBack(reply.world, id, tries[1..]);
      (rest.0, (if reply.result.Ok? then reply.result.value.chunk else []) + rest.1)
  }

  predicate Replays(w: World, id: Id, recorded: Bytes, offset: nat) {
    && id in w.sessions && w.sessions[id].state == Replaying(offset) && offset <= |recorded|
    && w.sessions[id].responseBytes == |recorded| && File(w, ResponseFile(id)) == recorded
  }

  /** A read returns the next bytes, some of them if there are any, and says truly whether they were the last. */
  lemma ReadIsNext(w: World, id: Id, recorded: Bytes, offset: nat, readable: bool, wanted: nat) returns (next: nat)
    requires Replays(w, id, recorded, offset)
    ensures offset <= next <= |recorded| && Replays(Read(w, id, readable, wanted).world, id, recorded, next)
    ensures !readable ==> next == offset && Read(w, id, readable, wanted).result.Err?
    ensures readable ==> Read(w, id, readable, wanted).result == Ok(ReadResult(recorded[offset..next],
                                                                               next == |recorded|))
    ensures readable && offset < |recorded| ==> offset < next
  {
    next := if readable then offset + ReadCount(|recorded| - offset, wanted) else offset;
  }

  lemma Joins(bytes: Bytes, a: nat, b: nat, c: nat)
    requires a <= b <= c <= |bytes|
    ensures bytes[a..b] + bytes[b..c] == bytes[a..c]
  {
  }

  /** One more read before the others. */
  lemma ReadFirst(w: World, id: Id, recorded: Bytes, tries: seq<Try>, offset: nat, next: nat, end: nat)
    requires tries != [] && offset <= next <= end <= |recorded|
    requires var reply := Read(w, id, tries[0].readable, tries[0].wanted);
             && ReadBack(reply.world, id, tries[1..]).1 == recorded[next..end]
             && (if reply.result.Ok? then reply.result.value.chunk == recorded[offset..next] else next == offset)
    ensures ReadBack(w, id, tries).1 == recorded[offset..end]
    ensures ReadBack(w, id, tries).0
            == ReadBack(Read(w, id, tries[0].readable, tries[0].wanted).world, id, tries[1..]).0
  {
    hide Read;
    Joins(recorded, offset, next, end);
  }

  /** However the reads are sized, together they return the recorded response up to the offset. */
  lemma {:induction false} ReplayReadsBack(w: World, id: Id, recorded: Bytes, offset: nat, tries: seq<Try>)
    returns (end: nat)
    requires Replays(w, id, recorded, offset)
    ensures offset <= end <= |recorded| && Replays(ReadBack(w, id, tries).0, id, recorded, end)
    ensures ReadBack(w, id, tries).1 == recorded[offset..end]
    decreases |tries|
  {
    assert offset <= |recorded|;
    hide Read, Replays;
    if tries == [] {
      end := offset;
    } else {
      var next := ReadIsNext(w, id, recorded, offset, tries[0].readable, tries[0].wanted);
      end := ReplayReadsBack(Read(w, id, tries[0].readable, tries[0].wanted).world, id, recorded, next, tries[1..]);
      hide ReadBack;
      ReadFirst(w, id, recorded, tries, offset, next, end);
    }
  }

  /** A dispatch in replay makes the recorded response, and nothing else, the one that is read back. */
  lemma DispatchReplays(w: World, id: Id, codec: Codec, env: DispatchEnv)
    requires !w.capture && Dispatch(w, id, codec, env).result.Ok?
    ensures env.recorded.Some? && Replays(Dispatch(w, id, codec, env).world, id, env.recorded.value, 0)
    ensures Dispatch(w, id, codec, env).result.value.ReplayAction?
  {
    hide RequestOk;
  }
}
