// The artifacts a closed world hands over: those of its committed sessions, in the order of their commits.

module WorldArtifacts {
  import opened Classes
  import opened Options
  import opened Semantics
  import opened World
  import opened WorldLaws

  /** What the commit of one session adds to the artifacts. */
  function ArtifactsOf(slot: Slot, x: Exchange): seq<Artifact> {
    if IsDependencyClass(slot.class_) then [Artifact(RequestFile(x.id), None), Artifact(ResponseFile(x.id), None)]
    else [Artifact(ResponseFile(x.id), Some(StateReference(slot, x)))]
  }

  function StateReference(slot: Slot, x: Exchange): Reference {
    Reference(OfBytes(x.response), |x.response|, StateUri(slot.class_, OfBytes(x.request), slot.position, x.outcome))
  }

  /** The artifacts of all committed sessions, by observation. */
  function SessionArtifacts(sources: seq<Option<Slot>>, exchanges: map<Slot, Exchange>): seq<Artifact> {
    if sources == [] then []
    else
      var last := sources[|sources| - 1];
      SessionArtifacts(sources[..|sources| - 1], exchanges)
      + (if last.Some? && last.value in exchanges then ArtifactsOf(last.value, exchanges[last.value]) else [])
  }

  /** The references of the sessions that observed state, by observation. */
  function StateReferences(sources: seq<Option<Slot>>, exchanges: map<Slot, Exchange>): seq<Reference> {
    if sources == [] then []
    else
      var last := sources[|sources| - 1];
      StateReferences(sources[..|sources| - 1], exchanges)
      + (if last.Some? && last.value in exchanges && !IsDependencyClass(last.value.class_)
         then [StateReference(last.value, exchanges[last.value])] else [])
  }

  /** The artifacts that are not the evidence of an unowned mark. */
  function Owned(artifacts: seq<Artifact>): seq<Artifact> {
    if artifacts == [] then []
    else
      var last := artifacts[|artifacts| - 1];
      Owned(artifacts[..|artifacts| - 1]) + (if last.path.UnownedFile? then [] else [last])
  }

  /** Unless something went wrong the owned artifacts are those of the sessions; the others are accounted for. */
  ghost predicate ListsOk(w: World) {
    && (!w.incomplete ==> Owned(w.artifacts) == SessionArtifacts(w.history.sources, w.history.exchanges))
    && |w.artifacts| <= |Owned(w.artifacts)| + w.history.unownedLost + CountUnowned(w.history.sources)
  }

  predicate SameLists(w: World, w': World) {
    && w'.artifacts == w.artifacts && w'.history.sources == w.history.sources
    && w'.history.exchanges == w.history.exchanges
    && w'.history.unownedLost == w.history.unownedLost && (w.incomplete ==> w'.incomplete)
    && w'.observations == w.observations && w'.interactions == w.interactions && (w.overflowed ==> w'.overflowed)
  }

  // ---- operations that leave the lists alone ----------------------------------------------------------

  lemma PrimitivesSame(w: World, id: Id, s: Session, created: nat)
    ensures SameLists(w, MarkIncomplete(w)) && SameLists(w, SetSession(w, id, s)) && SameLists(w, Dropped(w))
    ensures SameLists(w, Overflow(w, id)) && SameLists(w, Touch(w, id, created)) && SameLists(w, Opened(w, id, s))
  {
  }

  lemma UpdateSame(w: World, id: Id, s: Session, path: Path, content: Bytes, reserved: nat)
    ensures SameLists(w, Update(w, id, s, path, content, reserved))
  {
  }

  lemma OpenedSame(w: World, id: Id, created: nat, s: Session, positions: map<ObservationClass, nat>)
    ensures SameLists(w, Opened(Touch(w, id, created), id, s))
            && SameLists(w, Touch(w, id, created).(positions := positions))
  {
    PrimitivesSame(w, id, s, created);
    hide Touch;
  }

  lemma OpenSame(w: World, id: Id, class_: ObservationClass, parent: Option<int>, semantic: bool, created: nat)
    ensures SameLists(w, Open(w, id, class_, parent, semantic, created).world)
  {
    var s := Session(parent, class_, 0, 0, Position(w, class_), if semantic then Some(ContractFor(class_)) else None,
                     Requesting);
    PrimitivesSame(w, id, s, created);
    OpenedSame(w, id, created, s, w.positions[class_ := Position(w, class_)]);
    hide Touch, Opened, SameLists, ContractFor, Position, MarkIncomplete;
  }

  lemma WriteSame(w: World, id: Id, stream: Stream, chunk: Bytes, room: bool, appended: nat)
    ensures SameLists(w, Write(w, id, stream, chunk, room, appended).world)
  {
    hide Update, Overflow, MarkIncomplete, File;
    var blank := Session(None, Clock, 0, 0, 0, None, Requesting);
    PrimitivesSame(w, id, blank, 0);
    if id in w.sessions {
      var s := Added(w.sessions[id], stream, |chunk|);
      var content := File(w, StreamFile(id, stream)) + (if appended >= |chunk| then chunk else chunk[..appended]);
      UpdateSame(w, id, s, StreamFile(id, stream), content, |chunk|);
      PrimitivesSame(Update(w, id, s, StreamFile(id, stream), content, |chunk|), id, s, 0);
    }
  }

  lemma SetSame(w: World, id: Id, s: Session)
    ensures SameLists(w, SetSession(w, id, s)) && SameLists(w, MarkIncomplete(SetSession(w, id, s)))
  {
    hide SetSession, MarkIncomplete;
    PrimitivesSame(w, id, s, 0);
    PrimitivesSame(SetSession(w, id, s), id, s, 0);
  }

  lemma DispatchSame(w: World, id: Id, codec: Codec, env: DispatchEnv)
    ensures SameLists(w, Dispatch(w, id, codec, env).world)
  {
    hide RequestOk, File, Update, SetSession, MarkIncomplete;
    if id in w.sessions {
      var s := w.sessions[id];
      SetSame(w, id, s.(state := Overflowed));
      SetSame(w, id, s.(state := Capturing));
      if env.recorded.Some? {
        var s1 := s.(responseBytes := |env.recorded.value|);
        SetSame(w, id, s1);
        UpdateSame(w, id, s1, ResponseFile(id), env.partly, |env.recorded.value|);
        UpdateSame(w, id, s1.(state := Replaying(0)), ResponseFile(id), env.recorded.value, |env.recorded.value|);
      }
    }
  }

  lemma ReadSame(w: World, id: Id, readable: bool, wanted: nat)
    ensures SameLists(w, Read(w, id, readable, wanted).world)
  {
    hide File, ReadCount;
  }

  lemma SettledSame(w: World, id: Id, fate: Fate)
    requires id in w.sessions
    ensures SameLists(w, Settled(w, id, fate)) && SameLists(w, MarkIncomplete(Settled(w, id, fate)))
  {
  }

  lemma CoverSame(w: World, evidence: Bytes)
    ensures SameLists(w, BindCoverage(w, evidence).world)
  {
    PrimitivesSame(w, 0, Session(None, Clock, 0, 0, 0, None, Requesting), 0);
    hide MarkIncomplete;
  }

  // ---- operations that append -------------------------------------------------------------------------

  lemma {:induction false} OwnedAppend(artifacts: seq<Artifact>, more: seq<Artifact>)
    ensures Owned(artifacts + more) == Owned(artifacts) + Owned(more)
    decreases |more|
  {
    if more == [] {
      assert artifacts + more == artifacts;
    } else {
      var n := |more| - 1;
      assert (artifacts + more)[..|artifacts| + n] == artifacts + more[..n];
      OwnedAppend(artifacts, more[..n]);
    }
  }

  lemma OwnedSession(slot: Slot, x: Exchange)
    ensures Owned(ArtifactsOf(slot, x)) == ArtifactsOf(slot, x)
  {
    var a := ArtifactsOf(slot, x);
    assert a[..|a| - 1] + [a[|a| - 1]] == a;
    if |a| == 2 {
      assert a[..1] == [a[0]] && a[..1][..0] == [];
      assert Owned(a[..1]) == [a[0]];
    }
  }

  /** A new exchange changes nothing for the sessions that were committed before. */
  lemma {:induction false} ExchangesGrow(sources: seq<Option<Slot>>, exchanges: map<Slot, Exchange>, slot: Slot,
                                         x: Exchange)
    requires Some(slot) !in sources
    ensures SessionArtifacts(sources, exchanges[slot := x]) == SessionArtifacts(sources, exchanges)
    decreases |sources|
  {
    if sources != [] {
      ExchangesGrow(sources[..|sources| - 1], exchanges, slot, x);
    }
  }

  lemma KeptLists(w: World, id: Id, x: Exchange)
    requires Inv(w) && ListsOk(w) && id in w.sessions && w.sessions[id].class_ in w.registrations
    ensures ListsOk(Kept(w, id, x))
  {
    var w', slot := Kept(w, id, x), SlotOf(w.sessions[id]);
    KeptIs(w, id, x);
    NotYetCommitted(w, id);
    hide Kept, Inv, ArtifactsOf, SlotOf;
    CommittedLists(w, w', slot, x);
  }

  lemma CommittedLists(w: World, w': World, slot: Slot, x: Exchange)
    requires ListsOk(w) && Some(slot) !in w.history.sources
    requires w'.artifacts == w.artifacts + ArtifactsOf(slot, x)
             && w'.history.sources == w.history.sources + [Some(slot)]
    requires w'.history.exchanges == w.history.exchanges[slot := x]
    requires w'.history.unownedLost == w.history.unownedLost && w'.incomplete == w.incomplete
    ensures ListsOk(w')
  {
    hide ArtifactsOf;
    OwnedAppend(w.artifacts, ArtifactsOf(slot, x));
    OwnedSession(slot, x);
    ExchangesGrow(w.history.sources, w.history.exchanges, slot, x);
    assert w'.history.sources[..|w'.history.sources| - 1] == w.history.sources;
  }

  lemma KeptIs(w: World, id: Id, x: Exchange)
    requires id in w.sessions && w.sessions[id].class_ in w.registrations
    ensures var w' := Kept(w, id, x); var slot := SlotOf(w.sessions[id]);
            && w'.artifacts == w.artifacts + ArtifactsOf(slot, x)
            && w'.history.sources == w.history.sources + [Some(slot)]
            && w'.history.exchanges == w.history.exchanges[slot := x] && w'.history.unownedLost == w.history.unownedLost
            && w'.incomplete == w.incomplete
  {
  }

  lemma NotYetCommitted(w: World, id: Id)
    requires Inv(w) && id in w.sessions
    ensures Some(SlotOf(w.sessions[id])) !in w.history.sources
  {
    assert SessionOk(w, id);
    forall k: nat | k < |w.history.sources| ensures w.history.sources[k] != Some(SlotOf(w.sessions[id])) {
      assert ObservationOk(w, k);
    }
  }

  /** A commit that fails after staging leaves artifacts without an observation, in an incomplete world. */
  lemma LeftoverLists(w: World, s: Session, x: Exchange)
    requires ListsOk(w) && w.incomplete
    ensures ListsOk(Staged(w, s, x))
  {
    assert NewArtifacts(s, x) == ArtifactsOf(SlotOf(s), x);
    hide ArtifactsOf;
    OwnedAppend(w.artifacts, ArtifactsOf(SlotOf(s), x));
    OwnedSession(SlotOf(s), x);
  }

  lemma SameKeeps(w: World, w': World)
    requires ListsOk(w) && SameLists(w, w')
    ensures ListsOk(w')
  {
  }

  /** The worlds that a finish can leave. */
  lemma FinishWorlds(w: World, id: Id, outcome: Outcome, position: nat, codec: Codec, readable: bool, recorded: bool)
    ensures var w' := Finish(w, id, outcome, position, codec, readable, recorded).world;
            if id !in w.sessions then w' == w
            else
              var lost, x := MarkIncomplete(Settled(w, id, Lost)), ExchangeOf(w, id, outcome);
              || w' == lost || w' == Staged(lost, w.sessions[id], x) || w' == Settled(w, id, Replayed)
              || (w.sessions[id].class_ in w.registrations && w' == Kept(w, id, x))
  {
    hide PairOk, File, Settled, MarkIncomplete, Staged, Kept, CommitFault, ExchangeOf, ResponseComplete;
  }

  lemma FinishLists(w: World, id: Id, outcome: Outcome, position: nat, codec: Codec, readable: bool, recorded: bool)
    requires Inv(w) && ListsOk(w)
    ensures ListsOk(Finish(w, id, outcome, position, codec, readable, recorded).world)
  {
    FinishWorlds(w, id, outcome, position, codec, readable, recorded);
    if id in w.sessions {
      var x := ExchangeOf(w, id, outcome);
      SettledSame(w, id, Lost);
      SettledSame(w, id, Replayed);
      var lost := MarkIncomplete(Settled(w, id, Lost));
      assert lost.incomplete;
      hide Inv, Finish, Settled, MarkIncomplete, Staged, Kept, Owned, SessionArtifacts, CountUnowned;
      SameKeeps(w, Settled(w, id, Replayed));
      SameKeeps(w, lost);
      hide ListsOk, SameLists, ExchangeOf;
      LeftoverLists(lost, w.sessions[id], x);
      if w.sessions[id].class_ in w.registrations {
        KeptLists(w, id, x);
      }
    }
  }

  lemma StoredLists(w: World, evidence: Bytes)
    requires ListsOk(w)
    ensures ListsOk(MarkLost(Stored(w, evidence)))
  {
    var k := |w.observations|;
    var a := Artifact(UnownedFile(k), Some(Reference(OfBytes(evidence), |evidence|, UnownedUri(k, OfBytes(evidence)))));
    assert (w.artifacts + [a])[..|w.artifacts|] == w.artifacts;
  }

  lemma MarkedLists(w: World, evidence: Bytes, o: Observation)
    requires ListsOk(w)
    ensures ListsOk(Marked(Stored(w, evidence), o))
  {
    var k := |w.observations|;
    var a := Artifact(UnownedFile(k), Some(Reference(OfBytes(evidence), |evidence|, UnownedUri(k, OfBytes(evidence)))));
    assert (w.artifacts + [a])[..|w.artifacts|] == w.artifacts;
    var sources := w.history.sources + [None];
    assert sources[..|w.history.sources|] == w.history.sources;
  }

  lemma LostLists(w: World, reserved: nat)
    requires ListsOk(w)
    ensures ListsOk(MarkLost(w.(reserved := reserved)))
  {
  }

  lemma MarkLists(w: World, class_: ObservationClass, parent: Option<int>, evidence: Bytes, room: bool, stored: bool,
                  recorded: bool)
    requires ListsOk(w)
    ensures ListsOk(MarkUnowned(w, class_, parent, evidence, room, stored, recorded).world)
  {
    PrimitivesSame(w, 0, Session(None, Clock, 0, 0, 0, None, Requesting), 0);
    LostLists(w, w.reserved + |evidence|);
    StoredLists(w, evidence);
    MarkedLists(w, evidence, Observation(class_, parent, OfBytes(evidence), |w.observations|, None));
    hide Stored, Marked, Dropped, MarkLost, MarkIncomplete, Owned, SessionArtifacts, CountUnowned;
  }

  lemma StepLists(w: World, step: Step, codec: Codec)
    requires Inv(w) && ListsOk(w)
    ensures ListsOk(Apply(w, step, codec))
  {
    hide Inv, Open, Write, Dispatch, Read, Finish, MarkUnowned, BindCoverage, MarkIncomplete, Settled;
    match step
    case OpenStep(id, class_, parent, semantic, created) => OpenSame(w, id, class_, parent, semantic, created);
    case WriteStep(id, stream, chunk, room, appended) => WriteSame(w, id, stream, chunk, room, appended);
    case DispatchStep(id, env) => DispatchSame(w, id, codec, env);
    case ReadStep(id, readable, wanted) => ReadSame(w, id, readable, wanted);
    case FinishStep(id, outcome, position, readable, recorded) =>
      FinishLists(w, id, outcome, position, codec, readable, recorded);
    case AbandonStep(id) => if id in w.sessions { SettledSame(w, id, Lost); }
    case MarkStep(class_, parent, evidence, room, stored, recorded) =>
      MarkLists(w, class_, parent, evidence, room, stored, recorded);
    case CoverStep(evidence) => CoverSame(w, evidence);
    case InvalidateStep => PrimitivesSame(w, 0, Session(None, Clock, 0, 0, 0, None, Requesting), 0);
  }

  lemma {:induction false} RunLists(w: World, steps: seq<Step>, codec: Codec)
    requires Inv(w) && ListsOk(w)
    ensures ListsOk(Run(w, steps, codec))
    decreases |steps|
  {
    hide Inv, ListsOk, Apply;
    if steps != [] {
      StepKeeps(w, steps[0], codec);
      StepLists(w, steps[0], codec);
      RunLists(Apply(w, steps[0], codec), steps[1..], codec);
    }
  }

  // ---- what a close hands over -------------------------------------------------------------------------

  lemma {:induction false} ReferencesAppend(a: seq<Artifact>, b: seq<Artifact>)
    ensures References(a + b) == References(a) + References(b)
    decreases |a|
  {
    if a == [] {
      assert a + b == b;
    } else {
      var first := if a[0].reference.Some? then [a[0].reference.value] else [];
      assert (a + b)[0] == a[0] && (a + b)[1..] == a[1..] + b;
      ReferencesAppend(a[1..], b);
      assert first + (References(a[1..]) + References(b)) == (first + References(a[1..])) + References(b);
    }
  }

  lemma ReferencesOfSession(slot: Slot, x: Exchange)
    ensures References(ArtifactsOf(slot, x)) == if IsDependencyClass(slot.class_) then [] else [StateReference(slot, x)]
  {
    var a := ArtifactsOf(slot, x);
    if IsDependencyClass(slot.class_) {
      assert a[1..] == [a[1]] && a[1..][1..] == [];
      assert References(a[1..]) == [];
    } else {
      assert a[1..] == [];
    }
  }

  lemma {:induction false} ReferencesOfSessions(sources: seq<Option<Slot>>, exchanges: map<Slot, Exchange>)
    ensures References(SessionArtifacts(sources, exchanges)) == StateReferences(sources, exchanges)
    decreases |sources|
  {
    if sources != [] {
      var init, last := sources[..|sources| - 1], sources[|sources| - 1];
      ReferencesOfSessions(init, exchanges);
      if last.Some? && last.value in exchanges {
        var more := ArtifactsOf(last.value, exchanges[last.value]);
        ReferencesAppend(SessionArtifacts(init, exchanges), more);
        ReferencesOfSession(last.value, exchanges[last.value]);
        assert StateReferences(sources, exchanges) == StateReferences(init, exchanges) + References(more);
      } else {
        assert SessionArtifacts(sources, exchanges) == SessionArtifacts(init, exchanges);
      }
    }
  }

  lemma {:induction false} OwnedIsAll(artifacts: seq<Artifact>)
    ensures |Owned(artifacts)| <= |artifacts|
    ensures |Owned(artifacts)| == |artifacts| ==> Owned(artifacts) == artifacts
    decreases |artifacts|
  {
    if artifacts != [] {
      OwnedIsAll(artifacts[..|artifacts| - 1]);
    }
  }

  /**
   * The references of a closed world, without the stored evidence of a mark that the recorder lost, are those
   * of the sessions that observed state, each once and in the order of the observations.
   */
  lemma CheckpointIsSessions(registrations: map<ObservationClass, Registration>, steps: seq<Step>, codec: Codec,
                             env: CloseEnv)
    requires Close(CaptureRun(registrations, steps, codec), env).Ok?
    ensures var w := CaptureRun(registrations, steps, codec);
            var checkpoint := Close(w, env).value.checkpoint;
            var sessions := StateReferences(w.history.sources, w.history.exchanges);
            && References(Owned(w.artifacts)) == sessions
            && (w.history.unownedLost == 0 ==> checkpoint == Checkpoint(sessions, TotalBytes(sessions), |sessions|))
  {
    var w := CaptureRun(registrations, steps, codec);
    assert ListsOk(w) by {
      hide Inv;
      NewWorldOk(true, registrations, map[]);
      RunLists(NewWorld(true, registrations, map[]), steps, codec);
    }
    FenceCountsAreTrue(registrations, steps, codec, env);
    CloseCommitsEverySession(registrations, steps, codec, env);
    hide Run, CaptureRun, References, TotalBytes, Owned, SessionArtifacts, StateReferences;
    NoneUnowned(w.history.sources);
    ReferencesOfSessions(w.history.sources, w.history.exchanges);
    OwnedIsAll(w.artifacts);
  }

  /** So the evidence of each observation of state is the digest of a reference that the close hands over. */
  lemma {:induction false} StateEvidenceIsReferenced(w: World, sources: seq<Option<Slot>>, k: nat)
    requires Inv(w) && sources <= w.history.sources && k < |sources| && sources[k].Some?
    requires !IsDependencyClass(sources[k].value.class_)
    ensures Aligned(w)
    ensures exists i :: 0 <= i < |StateReferences(sources, w.history.exchanges)|
                        && w.observations[k].evidence == OfReference(StateReferences(sources, w.history.exchanges)[i])
    decreases |sources|
  {
    var references := StateReferences(sources, w.history.exchanges);
    if k == |sources| - 1 {
      assert ObservationOk(w, k);
      assert references[|references| - 1] == StateReference(sources[k].value, w.history.exchanges[sources[k].value]);
    } else {
      var init := sources[..|sources| - 1];
      StateEvidenceIsReferenced(w, init, k);
      var before := StateReferences(init, w.history.exchanges);
      var i :| 0 <= i < |before| && w.observations[k].evidence == OfReference(before[i]);
      assert references[i] == before[i];
    }
  }
}
