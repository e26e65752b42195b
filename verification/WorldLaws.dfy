// What every run of the coordinator keeps, and what a successful close therefore means.

module WorldLaws {
  import opened Arith
  import opened Classes
  import opened MapSums
  import opened Options
  import opened Semantics
  import opened World

  // ---- the invariant, one session, slot and observation at a time -----------------------------------

  /** A session has its slot and its files, and outside an error its counts are the files' lengths. */
  predicate SessionOk(w: World, id: Id) {
    id in w.sessions ==>
      var s := w.sessions[id];
      && SlotOf(s) in w.history.fates && w.history.fates[SlotOf(s)] == Live(id)
      && RequestFile(id) in w.spool && ResponseFile(id) in w.spool && id in w.history.seen
      && (!w.incomplete ==> s.requestBytes == |w.spool[RequestFile(id)]|)
      && (!w.incomplete && (s.state.Capturing? || s.state.Replaying?) ==>
            s.responseBytes == |w.spool[ResponseFile(id)]|)
      && (w.capture && s.state.Requesting? ==> s.responseBytes == 0 && w.spool[ResponseFile(id)] == [])
      && (s.state.Capturing? ==> w.capture)
      && (s.state.Replaying? ==> !w.capture && s.state.offset <= |w.spool[ResponseFile(id)]|)
  }

  /** The slots of a class are its positions so far, and each has the fate that the rest of the state confirms. */
  predicate SlotOk(w: World, slot: Slot) {
    && FirstPosition(w, slot.class_) <= Position(w, slot.class_)
    && (slot in w.history.fates <==> FirstPosition(w, slot.class_) <= slot.position < Position(w, slot.class_))
    && (slot in w.history.exchanges ==> slot in w.history.fates && w.history.fates[slot].Committed?)
    && (slot in w.history.fates ==>
          match w.history.fates[slot]
          case Live(id) => id in w.sessions && SlotOf(w.sessions[id]) == slot
          case Committed(k) => w.capture && k < |w.history.sources| && w.history.sources[k] == Some(slot)
                               && slot in w.history.exchanges
          case Replayed => !w.capture
          case Lost => w.incomplete)
  }

  /** The evidence of a committed session is bound to the exact bytes of its exchange. */
  predicate EvidenceOk(w: World, o: Observation, link: Option<nat>, slot: Slot, x: Exchange) {
    if IsDependencyClass(slot.class_) then
      && link.Some? && link.value < |w.interactions| && o.evidence == OfInteraction(w.interactions[link.value])
      && w.interactions[link.value]
           == Interaction(x.parent, x.outcome, OfBytes(x.request), OfBytes(x.response), link.value, slot.position)
    else
      && link.None?
      && o.evidence == OfReference(Reference(OfBytes(x.response), |x.response|,
                                             StateUri(slot.class_, OfBytes(x.request), slot.position, x.outcome)))
  }

  predicate Aligned(w: World) {
    |w.history.sources| == |w.history.links| == |w.observations| <= MAX_EVENTS
  }

  predicate ObservationOk(w: World, k: nat) {
    Aligned(w) && k < |w.observations| ==>
      var o := w.observations[k];
      && o.sequence == k
      && match w.history.sources[k]
         case None => o.owner.None? && w.history.links[k].None?
         case Some(slot) =>
           && o.owner.Some? && o.class_ == slot.class_
           && slot in w.history.fates && w.history.fates[slot] == Committed(k)
           && slot in w.history.exchanges && o.parent == w.history.exchanges[slot].parent
           && w.history.exchanges[slot].request != [] && w.history.exchanges[slot].response != []
           && EvidenceOk(w, o, w.history.links[k], slot, w.history.exchanges[slot])
  }

  /** Unless an identifier was opened twice, the files of a committed session still hold its exchange. */
  predicate FilesOk(w: World, slot: Slot) {
    slot in w.history.exchanges && !w.history.reused ==>
      var x := w.history.exchanges[slot];
      && x.id in w.history.seen && x.id !in w.sessions
      && File(w, RequestFile(x.id)) == x.request && File(w, ResponseFile(x.id)) == x.response
  }

  /** Transcript interactions are numbered by position, and later observations use later ones. */
  predicate LinksOk(links: seq<Option<nat>>, interactions: seq<Interaction>) {
    && (forall k :: 0 <= k < |links| && links[k].Some? ==> links[k].value < |interactions|)
    && (forall k, m :: 0 <= k < m < |links| && links[k].Some? && links[m].Some? ==> links[k].value < links[m].value)
    && (forall j :: 0 <= j < |interactions| ==> interactions[j].sequence == j)
  }

  function CountLinked(links: seq<Option<nat>>): nat {
    if links == [] then 0 else CountLinked(links[..|links| - 1]) + (if links[|links| - 1].Some? then 1 else 0)
  }

  /** Unless something went wrong, the transcript has one interaction for each dependency observation. */
  predicate TranscriptOk(incomplete: bool, links: seq<Option<nat>>, interactions: seq<Interaction>) {
    !incomplete ==> CountLinked(links) == |interactions|
  }

  function CountUnowned(sources: seq<Option<Slot>>): nat {
    if sources == [] then 0 else CountUnowned(sources[..|sources| - 1]) + (if sources[|sources| - 1].None? then 1
                                                                           else 0)
  }

  /** The counters and flags say what happened. */
  predicate CountsOk(w: World) {
    && w.dropped == Min(w.history.drops, U64_MAX)
    && (w.overflowed <==> w.history.drops > 0)
    && w.history.unownedDropped <= w.history.drops
    && w.history.unownedMarks == w.history.unownedDropped + w.history.unownedLost + CountUnowned(w.history.sources)
  }

  ghost predicate SessionsOk(w: World) { forall id :: SessionOk(w, id) }
  ghost predicate SlotsOk(w: World) { forall slot :: SlotOk(w, slot) }
  ghost predicate ObservationsOk(w: World) { Aligned(w) && forall k: nat :: ObservationOk(w, k) }
  ghost predicate AllFilesOk(w: World) { forall slot :: FilesOk(w, slot) }

  ghost predicate Inv(w: World) {
    && SessionsOk(w) && SlotsOk(w) && ObservationsOk(w) && AllFilesOk(w)
    && LinksOk(w.history.links, w.interactions) && TranscriptOk(w.incomplete, w.history.links, w.interactions)
    && CountsOk(w) && |w.sessions| <= MAX_SESSIONS
  }

  predicate SameMode(w: World, w': World) {
    w'.capture == w.capture && w'.first == w.first
  }

  lemma NewWorldOk(capture: bool, registrations: map<ObservationClass, Registration>, first: map<ObservationClass, nat>)
    ensures Inv(NewWorld(capture, registrations, first))
  {
  }

  // ---- changes that concern one session ------------------------------------------------------------

  /** What a change of session `id` may not touch. */
  ghost predicate OnlySession(w: World, w': World, id: Id) {
    && w'.capture == w.capture && w'.first == w.first && w'.positions == w.positions && (w.incomplete ==> w'.incomplete)
    && w'.interactions == w.interactions && w'.observations == w.observations
    && w'.history.fates == w.history.fates && w'.history.exchanges == w.history.exchanges
    && w'.history.sources == w.history.sources && w'.history.links == w.history.links
    && w'.history.seen == w.history.seen && w'.history.reused == w.history.reused
    && w'.sessions.Keys == w.sessions.Keys
    && (forall x :: x in w.sessions && x != id ==> w'.sessions[x] == w.sessions[x])
    && (forall p :: p != RequestFile(id) && p != ResponseFile(id) ==>
          (p in w.spool <==> p in w'.spool) && (p in w.spool ==> w'.spool[p] == w.spool[p]))
  }

  /** A session may change its counts, its state and its own files. */
  lemma SessionChanges(w: World, w': World, id: Id)
    requires Inv(w) && OnlySession(w, w', id) && id in w.sessions && SlotOf(w'.sessions[id]) == SlotOf(w.sessions[id])
    requires SessionOk(w', id) && CountsOk(w')
    ensures Inv(w')
  {
    hide CountsOk, LinksOk, EvidenceOk, CountUnowned;
    assert SessionOk(w, id);
    forall x ensures SessionOk(w', x) {
      assert SessionOk(w, x);
    }
    forall slot ensures SlotOk(w', slot) {
      assert SlotOk(w, slot);
    }
    forall k: nat ensures ObservationOk(w', k) {
      assert ObservationOk(w, k);
      SameEvidence(w, w', k);
    }
    forall slot ensures FilesOk(w', slot) {
      assert FilesOk(w, slot);
    }
    assert |w'.sessions.Keys| == |w.sessions.Keys| && |w'.sessions.Keys| == |w'.sessions|
           && |w.sessions.Keys| == |w.sessions|;
  }

  lemma SameEvidence(w: World, w': World, k: nat)
    requires Aligned(w) && ObservationOk(w, k)
    requires w.interactions <= w'.interactions && w'.observations == w.observations
    requires w'.history.sources == w.history.sources && w'.history.links == w.history.links
    requires w'.history.exchanges == w.history.exchanges && w'.history.fates == w.history.fates
    ensures ObservationOk(w', k)
  {
  }

  /** Raising flags and counters changes nothing else. */
  lemma FlagsRise(w: World, w': World)
    requires Inv(w) && CountsOk(w') && (w.incomplete ==> w'.incomplete)
    requires w' == w.(incomplete := w'.incomplete, overflowed := w'.overflowed, dropped := w'.dropped,
                      reserved := w'.reserved,
                      history := w.history.(drops := w'.history.drops, unownedMarks := w'.history.unownedMarks,
                                            unownedDropped := w'.history.unownedDropped,
                                                unownedLost := w'.history.unownedLost))
    ensures Inv(w')
  {
    hide CountsOk, LinksOk, EvidenceOk, CountUnowned;
    forall x ensures SessionOk(w', x) { assert SessionOk(w, x); }
    forall slot ensures SlotOk(w', slot) { assert SlotOk(w, slot); }
    forall k: nat ensures ObservationOk(w', k) { assert ObservationOk(w, k); SameEvidence(w, w', k); }
    forall slot ensures FilesOk(w', slot) { assert FilesOk(w, slot); }
  }

  lemma IncompleteKeeps(w: World)
    requires Inv(w)
    ensures Inv(MarkIncomplete(w))
  {
    FlagsRise(w, MarkIncomplete(w));
  }

  // ---- opening -----------------------------------------------------------------------------------------

  lemma TouchKeeps(w: World, id: Id, created: nat)
    requires Inv(w) && id !in w.sessions
    ensures Inv(Touch(w, id, created))
  {
    hide CountsOk, LinksOk, EvidenceOk, CountUnowned;
    var w' := Touch(w, id, created);
    assert CountsOk(w') by { SameCounts(w, w'); }
    forall x ensures SessionOk(w', x) { assert SessionOk(w, x); }
    forall slot ensures SlotOk(w', slot) { assert SlotOk(w, slot); }
    forall k: nat ensures ObservationOk(w', k) { assert ObservationOk(w, k); SameEvidence(w, w', k); }
    forall slot ensures FilesOk(w', slot) { assert FilesOk(w, slot); }
  }

  lemma SameCounts(w: World, w': World)
    requires CountsOk(w) && w'.dropped == w.dropped && w'.overflowed == w.overflowed
             && w'.history.drops == w.history.drops
    requires w'.history.unownedMarks == w.history.unownedMarks && w'.history.unownedDropped == w.history.unownedDropped
    requires w'.history.unownedLost == w.history.unownedLost && w'.history.sources == w.history.sources
    ensures CountsOk(w')
  {
  }

  lemma OpenedSlots(w: World, id: Id, s: Session)
    requires SlotsOk(w) && s.position == Position(w, s.class_) && id !in w.sessions
    ensures SlotsOk(Opened(w, id, s)) && SlotOf(s) !in w.history.fates
  {
    var w' := Opened(w, id, s);
    assert SlotOk(w, SlotOf(s));
    forall slot ensures SlotOk(w', slot) {
      assert SlotOk(w, slot);
    }
  }

  lemma OpenedSessions(w: World, id: Id, s: Session)
    requires SessionsOk(w) && SlotOf(s) !in w.history.fates && id in w.history.seen
    requires s.state.Requesting? && s.requestBytes == s.responseBytes == 0
    requires RequestFile(id) in w.spool && ResponseFile(id) in w.spool
             && w.spool[RequestFile(id)] == w.spool[ResponseFile(id)] == []
    ensures SessionsOk(Opened(w, id, s))
  {
    var w' := Opened(w, id, s);
    forall x ensures SessionOk(w', x) {
      assert SessionOk(w, x);
    }
  }

  /** A session enters at the next position of its class. */
  lemma OpenedKeeps(w: World, id: Id, s: Session)
    requires Inv(w) && id !in w.sessions && |w.sessions| < MAX_SESSIONS
    requires s.position == Position(w, s.class_) && s.state.Requesting? && s.requestBytes == s.responseBytes == 0
    ensures Inv(Opened(Touch(w, id, 2), id, s))
  {
    hide CountsOk, LinksOk, EvidenceOk, CountUnowned, SessionsOk, SlotsOk, SessionOk, SlotOk;
    TouchKeeps(w, id, 2);
    var w1 := Touch(w, id, 2);
    var w' := Opened(w1, id, s);
    assert CountsOk(w') by { SameCounts(w1, w'); }
    OpenedSlots(w1, id, s);
    OpenedSessions(w1, id, s);
    forall k: nat ensures ObservationOk(w', k) {
      assert ObservationOk(w1, k);
      FatesElsewhere(w1, w', k, SlotOf(s));
    }
    forall slot ensures FilesOk(w', slot) { assert FilesOk(w1, slot) && FilesOk(w, slot); }
  }

  /** An observation only depends on the fate of its own slot. */
  lemma FatesElsewhere(w: World, w': World, k: nat, changed: Slot)
    requires Aligned(w) && ObservationOk(w, k) && (changed in w.history.fates ==> !w.history.fates[changed].Committed?)
    requires w.interactions <= w'.interactions && w'.observations == w.observations
    requires w'.history.sources == w.history.sources && w'.history.links == w.history.links
    requires w'.history.exchanges == w.history.exchanges
    requires forall slot :: slot != changed && slot in w.history.fates ==>
               slot in w'.history.fates && w'.history.fates[slot] == w.history.fates[slot]
    ensures ObservationOk(w', k)
  {
  }

  lemma OpenKeeps(w: World, id: Id, class_: ObservationClass, parent: Option<int>, semantic: bool, created: nat)
    requires Inv(w)
    ensures Inv(Open(w, id, class_, parent, semantic, created).world)
  {
    hide Inv, Opened;
    if id in w.sessions || |w.sessions| >= MAX_SESSIONS || (w.capture && class_ !in w.registrations) {
      IncompleteKeeps(w);
    } else {
      TouchKeeps(w, id, created);
      var position := Position(w, class_);
      if created >= 2 && position + 1 <= MAX_SESSION_POSITION {
        assert Touch(w, id, created) == Touch(w, id, 2);
        OpenedKeeps(w, id, Session(parent, class_, 0, 0, position,
                                   if semantic then Some(ContractFor(class_)) else None, Requesting));
      } else if created >= 2 {
        SamePositions(Touch(w, id, created), class_);
      }
    }
  }

  lemma SamePositions(w: World, class_: ObservationClass)
    requires Inv(w)
    ensures Inv(w.(positions := w.positions[class_ := Position(w, class_)]))
  {
    hide CountsOk, LinksOk, EvidenceOk, CountUnowned;
    var w' := w.(positions := w.positions[class_ := Position(w, class_)]);
    assert CountsOk(w') by { SameCounts(w, w'); }
    forall x ensures SessionOk(w', x) { assert SessionOk(w, x); }
    forall slot ensures SlotOk(w', slot) { assert SlotOk(w, slot); }
    forall k: nat ensures ObservationOk(w', k) { assert ObservationOk(w, k); SameEvidence(w, w', k); }
    forall slot ensures FilesOk(w', slot) { assert FilesOk(w, slot); }
  }

  // ---- writing, dispatching, reading --------------------------------------------------------------

  lemma OverflowKeeps(w: World, id: Id)
    requires Inv(w)
    ensures Inv(Overflow(w, id))
  {
    var flagged := w.(incomplete := true, overflowed := true, dropped := SatAdd(w.dropped, 1),
                      history := w.history.(drops := w.history.drops + 1));
    FlagsRise(w, flagged);
    if id in w.sessions {
      assert SessionOk(flagged, id);
      SessionChanges(flagged, Overflow(w, id), id);
    }
  }

  lemma WriteKeeps(w: World, id: Id, stream: Stream, chunk: Bytes, room: bool, appended: nat)
    requires Inv(w)
    ensures Inv(Write(w, id, stream, chunk, room, appended).world)
  {
    hide Inv, Overflow, Update, MarkIncomplete;
    OverflowKeeps(w, id);
    if id in w.sessions && chunk != [] && Accepts(w.sessions[id], stream) {
      Appends(w, id, stream, chunk, appended);
    }
  }

  lemma Appends(w: World, id: Id, stream: Stream, chunk: Bytes, appended: nat)
    requires Inv(w) && id in w.sessions && chunk != [] && Accepts(w.sessions[id], stream)
    ensures var path := StreamFile(id, stream);
            var s := Added(w.sessions[id], stream, |chunk|);
            if appended >= |chunk| then Inv(Update(w, id, s, path, File(w, path) + chunk, |chunk|))
            else Inv(MarkIncomplete(Update(w, id, s, path, File(w, path) + chunk[..appended], |chunk|)))
  {
    var path := StreamFile(id, stream);
    var s := Added(w.sessions[id], stream, |chunk|);
    assert SessionOk(w, id);
    if appended >= |chunk| {
      assert SessionOk(Update(w, id, s, path, File(w, path) + chunk, |chunk|), id);
      hide Inv, SessionOk, Update;
      UpdateKeeps(w, id, s, path, File(w, path) + chunk, |chunk|);
    } else {
      AppendsPart(w, id, stream, chunk, appended);
    }
  }

  /** A failed append leaves part of the chunk and marks the world incomplete. */
  lemma AppendsPart(w: World, id: Id, stream: Stream, chunk: Bytes, appended: nat)
    requires Inv(w) && id in w.sessions && appended < |chunk| && Accepts(w.sessions[id], stream)
    ensures Inv(MarkIncomplete(Update(w, id, Added(w.sessions[id], stream, |chunk|), StreamFile(id, stream),
                                      File(w, StreamFile(id, stream)) + chunk[..appended], |chunk|)))
  {
    var path := StreamFile(id, stream);
    var s := Added(w.sessions[id], stream, |chunk|);
    var content := File(w, path) + chunk[..appended];
    assert SessionOk(w, id);
    var w1 := MarkIncomplete(w);
    IncompleteKeeps(w);
    assert SessionOk(Update(w1, id, s, path, content, |chunk|), id);
    hide Inv, SessionOk;
    UpdateKeeps(w1, id, s, path, content, |chunk|);
    assert Update(w1, id, s, path, content, |chunk|) == MarkIncomplete(Update(w, id, s, path, content, |chunk|));
  }

  /** A session changes together with one of its files. */
  lemma UpdateKeeps(w: World, id: Id, s: Session, path: Path, content: Bytes, reserved: nat)
    requires Inv(w) && id in w.sessions && SlotOf(s) == SlotOf(w.sessions[id])
             && (path == RequestFile(id) || path == ResponseFile(id))
    requires SessionOk(Update(w, id, s, path, content, reserved), id)
    ensures Inv(Update(w, id, s, path, content, reserved))
  {
    var w' := Update(w, id, s, path, content, reserved);
    assert CountsOk(w') by { SameCounts(w, w'); }
    hide SessionOk, CountsOk, SessionsOk, SlotsOk, ObservationsOk, AllFilesOk, LinksOk, TranscriptOk;
    SessionChanges(w, w', id);
  }

  /** A session changes its state or count only. */
  lemma SetSessionKeeps(w: World, id: Id, s: Session)
    requires Inv(w) && id in w.sessions && SlotOf(s) == SlotOf(w.sessions[id]) && SessionOk(SetSession(w, id, s), id)
    ensures Inv(SetSession(w, id, s))
  {
    var w' := SetSession(w, id, s);
    assert CountsOk(w') by { SameCounts(w, w'); }
    hide SessionOk, CountsOk, SessionsOk, SlotsOk, ObservationsOk, AllFilesOk, LinksOk, TranscriptOk;
    SessionChanges(w, w', id);
  }

  lemma DispatchFailsKeeps(w: World, id: Id)
    requires Inv(w) && id in w.sessions
    ensures Inv(MarkIncomplete(SetSession(w, id, w.sessions[id].(state := Overflowed))))
  {
    var s := w.sessions[id].(state := Overflowed);
    assert SessionOk(w, id);
    assert SessionOk(SetSession(w, id, s), id);
    hide Inv;
    SetSessionKeeps(w, id, s);
    IncompleteKeeps(SetSession(w, id, s));
  }

  lemma CaptureDispatchKeeps(w: World, id: Id)
    requires Inv(w) && id in w.sessions && w.capture && w.sessions[id].state.Requesting?
    ensures Inv(SetSession(w, id, w.sessions[id].(state := Capturing)))
  {
    assert SessionOk(w, id);
    assert SessionOk(SetSession(w, id, w.sessions[id].(state := Capturing)), id);
    hide Inv;
    SetSessionKeeps(w, id, w.sessions[id].(state := Capturing));
  }

  lemma ReplayDispatchKeeps(w: World, id: Id, recorded: Bytes, env: DispatchEnv)
    requires Inv(w) && id in w.sessions && !w.capture && w.sessions[id].state.Requesting?
    ensures var s := w.sessions[id].(responseBytes := |recorded|);
            if !env.room then Inv(MarkIncomplete(SetSession(w, id, s)))
            else if !env.stored then Inv(Update(w, id, s, ResponseFile(id), env.partly, |recorded|))
            else Inv(Update(w, id, s.(state := Replaying(0)), ResponseFile(id), recorded, |recorded|))
  {
    var s := w.sessions[id].(responseBytes := |recorded|);
    assert SessionOk(w, id);
    if !env.room {
      assert SessionOk(SetSession(w, id, s), id);
      hide Inv;
      SetSessionKeeps(w, id, s);
      IncompleteKeeps(SetSession(w, id, s));
    } else if !env.stored {
      hide Inv;
      UpdateKeeps(w, id, s, ResponseFile(id), env.partly, |recorded|);
    } else {
      hide Inv;
      UpdateKeeps(w, id, s.(state := Replaying(0)), ResponseFile(id), recorded, |recorded|);
    }
  }

  lemma DispatchKeeps(w: World, id: Id, codec: Codec, env: DispatchEnv)
    requires Inv(w)
    ensures Inv(Dispatch(w, id, codec, env).world)
  {
    hide Inv, RequestOk, SetSession, MarkIncomplete, Update;
    if id in w.sessions {
      DispatchFailsKeeps(w, id);
      if w.sessions[id].state.Requesting? {
        if w.capture { CaptureDispatchKeeps(w, id); }
        else if env.recorded.Some? { ReplayDispatchKeeps(w, id, env.recorded.value, env); }
      }
    }
  }

  lemma ReadKeeps(w: World, id: Id, readable: bool, wanted: nat)
    requires Inv(w)
    ensures Inv(Read(w, id, readable, wanted).world)
  {
    var w' := Read(w, id, readable, wanted).world;
    if id in w.sessions && w' != w {
      assert SessionOk(w, id);
      assert SessionOk(w', id);
      assert CountsOk(w');
      hide Inv, SessionOk, CountsOk;
      SessionChanges(w, w', id);
    }
  }

  // ---- finishing and abandoning ------------------------------------------------------------------

  /** A session leaves without an observation: lost, or finished in replay. */
  lemma SettledKeeps(w: World, id: Id, fate: Fate)
    requires Inv(w) && id in w.sessions && ((fate.Lost? && w.incomplete) || (fate.Replayed? && !w.capture))
    ensures Inv(Settled(w, id, fate))
  {
    hide CountsOk, LinksOk, EvidenceOk, CountUnowned, Removed;
    var w' := Settled(w, id, fate);
    RemovedEverywhere(w.sessions, id);
    RemovedSize(w.sessions, id);
    var mine := SlotOf(w.sessions[id]);
    assert SessionOk(w, id);
    assert CountsOk(w') by { SameCounts(w, w'); }
    forall x ensures SessionOk(w', x) { assert SessionOk(w, x) && SlotOk(w, mine); }
    forall slot ensures SlotOk(w', slot) { assert SlotOk(w, slot); }
    forall k: nat ensures ObservationOk(w', k) {
      assert ObservationOk(w, k);
      FatesElsewhere(w, w', k, mine);
    }
    forall slot ensures FilesOk(w', slot) { assert FilesOk(w, slot); }
  }

  lemma LostKeeps(w: World, id: Id)
    requires Inv(w) && id in w.sessions
    ensures Inv(MarkIncomplete(Settled(w, id, Lost)))
  {
    hide Inv;
    IncompleteKeeps(w);
    SettledKeeps(MarkIncomplete(w), id, Lost);
    assert Settled(MarkIncomplete(w), id, Lost) == MarkIncomplete(Settled(w, id, Lost));
  }

  lemma LinksGrow(links: seq<Option<nat>>, interactions: seq<Interaction>, i: Interaction)
    requires LinksOk(links, interactions) && i.sequence == |interactions|
    ensures LinksOk(links, interactions + [i])
  {
  }

  /** Artifacts and interactions pushed for an observation that then fails. */
  lemma LeftoversKeep(w: World, artifacts: seq<Artifact>, interactions: seq<Interaction>)
    requires Inv(w) && w.incomplete && w.interactions <= interactions && LinksOk(w.history.links, interactions)
    ensures Inv(w.(artifacts := artifacts, interactions := interactions))
  {
    hide CountsOk, EvidenceOk, CountUnowned, LinksOk;
    var w' := w.(artifacts := artifacts, interactions := interactions);
    assert CountsOk(w') by { SameCounts(w, w'); }
    forall y ensures SessionOk(w', y) { assert SessionOk(w, y); }
    forall slot ensures SlotOk(w', slot) { assert SlotOk(w, slot); }
    forall k: nat ensures ObservationOk(w', k) { assert ObservationOk(w, k); SameEvidence(w, w', k); }
    forall slot ensures FilesOk(w', slot) { assert FilesOk(w, slot); }
  }

  lemma StagedKeeps(w: World, s: Session, x: Exchange)
    requires Inv(w) && w.incomplete
    ensures Inv(Staged(w, s, x))
  {
    LinksGrow(w.history.links, w.interactions, InteractionOf(w, s, x));
    InvLinks(w);
    hide Inv, LinksOk, InteractionOf, NewArtifacts;
    LeftoversKeep(w, Staged(w, s, x).artifacts, Staged(w, s, x).interactions);
  }

  lemma InvLinks(w: World)
    requires Inv(w)
    ensures LinksOk(w.history.links, w.interactions + [])
  {
    assert w.interactions + [] == w.interactions;
  }

  // ---- committing ------------------------------------------------------------------------------------

  lemma CountUnownedAppend(sources: seq<Option<Slot>>, source: Option<Slot>)
    ensures CountUnowned(sources + [source]) == CountUnowned(sources) + (if source.None? then 1 else 0)
  {
    assert (sources + [source])[..|sources|] == sources;
  }

  lemma CountLinkedAppend(links: seq<Option<nat>>, link: Option<nat>)
    ensures CountLinked(links + [link]) == CountLinked(links) + (if link.Some? then 1 else 0)
  {
    assert (links + [link])[..|links|] == links;
  }

  lemma LinksAppend(links: seq<Option<nat>>, interactions: seq<Interaction>, more: seq<Interaction>, link: Option<nat>)
    requires LinksOk(links, interactions) && LinksOk(links, interactions + more)
    requires link.Some? ==> |interactions| <= link.value < |interactions + more|
    ensures LinksOk(links + [link], interactions + more)
  {
  }

  /** One more observation leaves the earlier ones as they are. */
  lemma EarlierObservation(w: World, w': World, k: nat, changed: Slot)
    requires Aligned(w) && ObservationOk(w, k) && k < |w.observations| && Aligned(w')
    requires changed in w.history.fates ==> !w.history.fates[changed].Committed?
    requires w.interactions <= w'.interactions && w.observations <= w'.observations
    requires w.history.sources <= w'.history.sources && w.history.links <= w'.history.links
    requires forall slot :: slot != changed && slot in w.history.fates ==>
               slot in w'.history.fates && w'.history.fates[slot] == w.history.fates[slot]
    requires forall slot :: slot != changed && slot in w.history.exchanges ==>
               slot in w'.history.exchanges && w'.history.exchanges[slot] == w.history.exchanges[slot]
    ensures ObservationOk(w', k)
  {
  }

  predicate MayCommit(w: World, id: Id, x: Exchange) {
    && id in w.sessions && w.capture && w.sessions[id].class_ in w.registrations && |w.observations| < MAX_EVENTS
    && x.id == id && x.parent == w.sessions[id].parent && x.request != [] && x.response != []
    && x.request == File(w, RequestFile(id)) && x.response == File(w, ResponseFile(id))
  }

  /** The new observation carries evidence of the exchange. */
  lemma KeptObservation(w: World, id: Id, x: Exchange)
    requires Aligned(w) && MayCommit(w, id, x)
    ensures ObservationOk(Kept(w, id, x), |w.observations|)
  {
    hide Removed;
  }

  lemma KeptObservations(w: World, id: Id, x: Exchange)
    requires Inv(w) && MayCommit(w, id, x)
    ensures ObservationsOk(Kept(w, id, x))
  {
    hide LinksOk, CountsOk, Removed, SlotsOk, AllFilesOk;
    var w' := Kept(w, id, x);
    var n := |w.observations|;
    var mine := SlotOf(w.sessions[id]);
    assert SessionOk(w, id);
    KeptObservation(w, id, x);
    assert Aligned(w');
    hide SessionsOk, SessionOk, ObservationOk, Kept;
    KeptGrows(w, id, x);
    forall k: nat ensures ObservationOk(w', k) {
      assert ObservationOk(w, k);
      if k < n { EarlierObservation(w, w', k, mine); }
      else if k > n { PastEnd(w', k); }
    }
  }

  lemma PastEnd(w: World, k: nat)
    requires k >= |w.observations|
    ensures ObservationOk(w, k)
  {
  }

  lemma KeptGrows(w: World, id: Id, x: Exchange)
    requires MayCommit(w, id, x)
    ensures var w' := Kept(w, id, x); var mine := SlotOf(w.sessions[id]);
            && w.interactions <= w'.interactions && w.observations <= w'.observations
            && |w'.observations| == |w.observations| + 1
            && w.history.sources <= w'.history.sources && w.history.links <= w'.history.links
            && w'.history.fates == w.history.fates[mine := Committed(|w.observations|)]
            && w'.history.exchanges == w.history.exchanges[mine := x]
            && w'.history.sources == w.history.sources + [Some(mine)]
            && w'.history.seen == w.history.seen && w'.history.reused == w.history.reused
            && w'.sessions == Removed(w.sessions, id) && w'.spool == w.spool && w'.capture == w.capture
            && w'.positions == w.positions && w'.first == w.first && w'.incomplete == w.incomplete
  {
    hide InteractionOf, ReferenceOf, Evidence, IsDependencyClass, Removed, SlotOf, File;
  }

  lemma KeptSlots(w: World, id: Id, x: Exchange)
    requires Inv(w) && MayCommit(w, id, x)
    ensures SlotsOk(Kept(w, id, x))
  {
    var w' := Kept(w, id, x);
    KeptGrows(w, id, x);
    assert SessionOk(w, id) && SlotOk(w, SlotOf(w.sessions[id]));
    assert w.history.fates[SlotOf(w.sessions[id])] == Live(id);
    assert Aligned(w);
    hide Kept, LinksOk, CountsOk, Removed, EvidenceOk, ObservationsOk, AllFilesOk, SessionsOk, SessionOk, SlotOk,
        Aligned, MayCommit, File;
    RemovedEverywhere(w.sessions, id);
    forall slot ensures SlotOk(w', slot) {
      assert SlotOk(w, slot);
      KeptSlot(w, w', id, x, slot);
    }
  }

  lemma KeptSlot(w: World, w': World, id: Id, x: Exchange, slot: Slot)
    requires id in w.sessions && w.capture && SlotOk(w, slot) && SlotOk(w, SlotOf(w.sessions[id])) && Aligned(w)
    requires SlotOf(w.sessions[id]) in w.history.fates && w.history.fates[SlotOf(w.sessions[id])] == Live(id)
    requires var mine := SlotOf(w.sessions[id]);
             && w'.history.fates == w.history.fates[mine := Committed(|w.observations|)]
             && w'.history.exchanges == w.history.exchanges[mine := x]
             && w'.history.sources == w.history.sources + [Some(mine)]
             && (forall y :: y in w.sessions && y != id ==> y in w'.sessions && w'.sessions[y] == w.sessions[y])
             && w'.capture == w.capture
             && w'.positions == w.positions && w'.first == w.first && w'.incomplete == w.incomplete
    ensures SlotOk(w', slot)
  {
  }

  lemma KeptSessions(w: World, id: Id, x: Exchange)
    requires Inv(w) && MayCommit(w, id, x)
    ensures AllFilesOk(Kept(w, id, x)) && SessionsOk(Kept(w, id, x))
  {
    var w' := Kept(w, id, x);
    KeptGrows(w, id, x);
    assert SessionOk(w, id) && SlotOk(w, SlotOf(w.sessions[id]));
    hide Kept, LinksOk, CountsOk, Removed, EvidenceOk, ObservationsOk;
    RemovedEverywhere(w.sessions, id);
    forall y ensures SessionOk(w', y) { assert SessionOk(w, y); }
    forall slot ensures FilesOk(w', slot) { assert FilesOk(w, slot); }
  }

  /** A committed session becomes the next observation. */
  lemma KeptKeeps(w: World, id: Id, x: Exchange)
    requires Inv(w) && MayCommit(w, id, x)
    ensures Inv(Kept(w, id, x))
  {
    KeptObservations(w, id, x);
    KeptSlots(w, id, x);
    KeptSessions(w, id, x);
    KeptCounts(w, id, x);
    hide Inv, SlotsOk, ObservationsOk, AllFilesOk, SessionsOk, LinksOk, CountsOk, TranscriptOk;
    RemovedSize(w.sessions, id);
    InvParts(w);
    KeptGrows(w, id, x);
    PartsInv(Kept(w, id, x));
  }

  lemma InvParts(w: World)
    requires Inv(w)
    ensures |w.sessions| <= MAX_SESSIONS
  {
  }

  lemma PartsInv(w: World)
    requires SessionsOk(w) && SlotsOk(w) && ObservationsOk(w) && AllFilesOk(w)
    requires LinksOk(w.history.links, w.interactions) && TranscriptOk(w.incomplete, w.history.links, w.interactions)
    requires CountsOk(w) && |w.sessions| <= MAX_SESSIONS
    ensures Inv(w)
  {
  }

  lemma KeptCounts(w: World, id: Id, x: Exchange)
    requires Inv(w) && MayCommit(w, id, x)
    ensures LinksOk(Kept(w, id, x).history.links, Kept(w, id, x).interactions) && CountsOk(Kept(w, id, x))
    ensures TranscriptOk(w.incomplete, Kept(w, id, x).history.links, Kept(w, id, x).interactions)
  {
    hide SessionsOk, SlotsOk, ObservationsOk, AllFilesOk, CountUnowned, CountLinked, LinksOk;
    var s := w.sessions[id];
    CountLinkedAppend(w.history.links, if IsDependencyClass(s.class_) then Some(|w.interactions|) else None);
    CountUnownedAppend(w.history.sources, Some(SlotOf(s)));
    var i := InteractionOf(w, s, x);
    LinksGrow(w.history.links, w.interactions, i);
    if IsDependencyClass(s.class_) {
      LinksAppend(w.history.links, w.interactions, [i], Some(|w.interactions|));
    } else {
      assert w.interactions + [] == w.interactions;
      LinksAppend(w.history.links, w.interactions, [], None);
    }
  }

  lemma MarkedIsIncomplete(w: World)
    ensures MarkIncomplete(w).incomplete
  {
  }

  lemma CommitKeeps(w: World, id: Id, outcome: Outcome, readable: bool, recorded: bool)
    requires Inv(w) && id in w.sessions && w.capture && w.sessions[id].requestBytes > 0
             && w.sessions[id].responseBytes > 0
    ensures Inv(Commit(w, id, outcome, readable, recorded).world)
  {
    hide Inv, Kept, Staged, Settled, MarkIncomplete;
    LostKeeps(w, id);
    MarkedIsIncomplete(Settled(w, id, Lost));
    var s := w.sessions[id];
    var x := ExchangeOf(w, id, outcome);
    StagedKeeps(MarkIncomplete(Settled(w, id, Lost)), s, x);
    if |w.observations| < MAX_EVENTS && |x.request| == s.requestBytes && |x.response| == s.responseBytes
       && s.class_ in w.registrations {
      KeptKeeps(w, id, x);
    }
  }

  lemma FinishKeeps(w: World, id: Id, outcome: Outcome, position: nat, codec: Codec, readable: bool, recorded: bool)
    requires Inv(w)
    ensures Inv(Finish(w, id, outcome, position, codec, readable, recorded).world)
  {
    hide Inv, PairOk, Commit;
    if id in w.sessions {
      LostKeeps(w, id);
      if w.sessions[id].requestBytes > 0 && w.sessions[id].responseBytes > 0 {
        if w.capture { CommitKeeps(w, id, outcome, readable, recorded); }
        else { SettledKeeps(w, id, Replayed); }
      }
    }
  }

  lemma AbandonKeeps(w: World, id: Id)
    requires Inv(w)
    ensures Inv(Abandon(w, id).world)
  {
    hide Inv;
    if id in w.sessions { LostKeeps(w, id); }
  }

  // ---- unowned evidence and coverage ---------------------------------------------------------------

  lemma StoredKeeps(w: World, evidence: Bytes)
    requires Inv(w)
    ensures Inv(Stored(w, evidence))
  {
    hide CountsOk, LinksOk, EvidenceOk, CountUnowned;
    var w' := Stored(w, evidence);
    assert CountsOk(w') by { SameCounts(w, w'); }
    forall y ensures SessionOk(w', y) { assert SessionOk(w, y); }
    forall slot ensures SlotOk(w', slot) { assert SlotOk(w, slot); }
    forall k: nat ensures ObservationOk(w', k) { assert ObservationOk(w, k); SameEvidence(w, w', k); }
    forall slot ensures FilesOk(w', slot) { assert FilesOk(w, slot); }
  }

  lemma MarkedKeeps(w: World, o: Observation)
    requires Inv(w) && |w.observations| < MAX_EVENTS && o.sequence == |w.observations| && o.owner.None?
    ensures Inv(Marked(w, o))
  {
    hide EvidenceOk, CountUnowned, CountLinked, LinksOk;
    var w' := Marked(w, o);
    CountLinkedAppend(w.history.links, None);
    CountUnownedAppend(w.history.sources, None);
    assert w.interactions + [] == w.interactions;
    LinksAppend(w.history.links, w.interactions, [], None);
    hide CountsOk;
    forall y ensures SessionOk(w', y) { assert SessionOk(w, y); }
    forall slot ensures SlotOk(w', slot) { assert SlotOk(w, slot); }
    forall k: nat ensures ObservationOk(w', k) {
      assert ObservationOk(w, k);
      if k < |w.observations| { OtherObservation(w, w', k); }
    }
    forall slot ensures FilesOk(w', slot) { assert FilesOk(w, slot); }
  }

  lemma OtherObservation(w: World, w': World, k: nat)
    requires Aligned(w) && ObservationOk(w, k) && k < |w.observations| && Aligned(w')
    requires w.interactions == w'.interactions && w.observations <= w'.observations
    requires w.history.sources <= w'.history.sources && w.history.links <= w'.history.links
    requires w'.history.fates == w.history.fates && w'.history.exchanges == w.history.exchanges
    ensures ObservationOk(w', k)
  {
  }

  lemma MarkUnownedKeeps(w: World, class_: ObservationClass, parent: Option<int>, evidence: Bytes, room: bool,
                         stored: bool, recorded: bool)
    requires Inv(w)
    ensures Inv(MarkUnowned(w, class_, parent, evidence, room, stored, recorded).world)
  {
    StoredSame(w, evidence);
    hide Inv, Marked, Stored, Dropped, MarkLost, MarkIncomplete;
    IncompleteKeeps(w);
    DroppedKeeps(w);
    LostMarkKeeps(w, w.reserved + |evidence|);
    StoredKeeps(w, evidence);
    var w2 := Stored(w, evidence);
    LostMarkKeeps(w2, w2.reserved);
    assert w2.(reserved := w2.reserved) == w2;
    if |w.observations| < MAX_EVENTS {
      MarkedKeeps(w2, Observation(class_, parent, OfBytes(evidence), |w.observations|, None));
    }
  }

  lemma StoredSame(w: World, evidence: Bytes)
    ensures Stored(w, evidence).observations == w.observations && SameMode(w, Stored(w, evidence))
  {
  }

  lemma DroppedKeeps(w: World)
    requires Inv(w)
    ensures Inv(Dropped(w))
  {
    FlagsRise(w, Dropped(w));
  }

  lemma LostMarkKeeps(w: World, reserved: nat)
    requires Inv(w)
    ensures Inv(MarkLost(w.(reserved := reserved)))
  {
    FlagsRise(w, MarkLost(w.(reserved := reserved)));
  }

  lemma RegistrationsKeep(w: World, registrations: map<ObservationClass, Registration>)
    requires Inv(w)
    ensures Inv(w.(registrations := registrations))
  {
    hide CountsOk, LinksOk, EvidenceOk, CountUnowned;
    var w' := w.(registrations := registrations);
    assert CountsOk(w') by { SameCounts(w, w'); }
    forall y ensures SessionOk(w', y) { assert SessionOk(w, y); }
    forall slot ensures SlotOk(w', slot) { assert SlotOk(w, slot); }
    forall k: nat ensures ObservationOk(w', k) { assert ObservationOk(w, k); SameEvidence(w, w', k); }
    forall slot ensures FilesOk(w', slot) { assert FilesOk(w, slot); }
  }

  lemma BindCoverageKeeps(w: World, evidence: Bytes)
    requires Inv(w)
    ensures Inv(BindCoverage(w, evidence).world)
  {
    hide Inv;
    IncompleteKeeps(w);
    RegistrationsKeep(w, BindCoverage(w, evidence).world.registrations);
  }

  // ---- whole runs --------------------------------------------------------------------------------------

  datatype Step =
    | OpenStep(id: Id, class_: ObservationClass, parent: Option<int>, semantic: bool, created: nat)
    | WriteStep(id: Id, stream: Stream, chunk: Bytes, room: bool, appended: nat)
    | DispatchStep(id: Id, env: DispatchEnv)
    | ReadStep(id: Id, readable: bool, wanted: nat)
    | FinishStep(id: Id, outcome: Outcome, position: nat, readable: bool, recorded: bool)
    | AbandonStep(id: Id)
    | MarkStep(class_: ObservationClass, parent: Option<int>, evidence: Bytes, room: bool, stored: bool, recorded: bool)
    | CoverStep(evidence: Bytes)
    | InvalidateStep

  function Apply(w: World, step: Step, codec: Codec): World {
    match step
    case OpenStep(id, class_, parent, semantic, created) => Open(w, id, class_, parent, semantic, created).world
    case WriteStep(id, stream, chunk, room, appended) => Write(w, id, stream, chunk, room, appended).world
    case DispatchStep(id, env) => Dispatch(w, id, codec, env).world
    case ReadStep(id, readable, wanted) => Read(w, id, readable, wanted).world
    case FinishStep(id, outcome, position, readable, recorded) =>
           Finish(w, id, outcome, position, codec, readable, recorded).world
    case AbandonStep(id) => Abandon(w, id).world
    case MarkStep(class_, parent, evidence, room, stored, recorded) =>
           MarkUnowned(w, class_, parent, evidence, room, stored, recorded).world
    case CoverStep(evidence) => BindCoverage(w, evidence).world
    case InvalidateStep => MarkIncomplete(w)
  }

  function Run(w: World, steps: seq<Step>, codec: Codec): World
    decreases |steps|
  {
    if steps == [] then w else Run(Apply(w, steps[0], codec), steps[1..], codec)
  }

  lemma StepKeeps(w: World, step: Step, codec: Codec)
    requires Inv(w)
    ensures Inv(Apply(w, step, codec))
  {
    hide Inv, Open, Write, Dispatch, Read, Finish, Abandon, MarkUnowned, BindCoverage, MarkIncomplete;
    match step
    case OpenStep(id, class_, parent, semantic, created) => OpenKeeps(w, id, class_, parent, semantic, created);
    case WriteStep(id, stream, chunk, room, appended) => WriteKeeps(w, id, stream, chunk, room, appended);
    case DispatchStep(id, env) => DispatchKeeps(w, id, codec, env);
    case ReadStep(id, readable, wanted) => ReadKeeps(w, id, readable, wanted);
    case FinishStep(id, outcome, position, readable, recorded) =>
      FinishKeeps(w, id, outcome, position, codec, readable, recorded);
    case AbandonStep(id) => AbandonKeeps(w, id);
    case MarkStep(class_, parent, evidence, room, stored, recorded) =>
      MarkUnownedKeeps(w, class_, parent, evidence, room, stored, recorded);
    case CoverStep(evidence) => BindCoverageKeeps(w, evidence);
    case InvalidateStep => IncompleteKeeps(w);
  }

  lemma {:induction false} RunKeeps(w: World, steps: seq<Step>, codec: Codec)
    requires Inv(w)
    ensures Inv(Run(w, steps, codec))
    decreases |steps|
  {
    hide Inv, Apply;
    if steps != [] {
      StepKeeps(w, steps[0], codec);
      RunKeeps(Apply(w, steps[0], codec), steps[1..], codec);
    }
  }

  /** The mode and the first positions never change. */
  lemma {:induction false} RunKeepsMode(w: World, steps: seq<Step>, codec: Codec)
    ensures Run(w, steps, codec).capture == w.capture && Run(w, steps, codec).first == w.first
    decreases |steps|
  {
    hide Apply;
    if steps != [] {
      StepKeepsMode(w, steps[0], codec);
      RunKeepsMode(Apply(w, steps[0], codec), steps[1..], codec);
    }
  }

  lemma PrimitivesKeepMode(w: World, id: Id, s: Session)
    ensures SameMode(w, MarkIncomplete(w)) && SameMode(w, SetSession(w, id, s)) && SameMode(w, Opened(w, id, s))
    ensures SameMode(w, Dropped(w)) && SameMode(w, MarkLost(w)) && SameMode(w, Overflow(w, id))
  {
  }

  lemma TouchKeepsMode(w: World, id: Id, created: nat)
    ensures SameMode(w, Touch(w, id, created))
  {
  }

  lemma OpenedKeepsMode(w: World, id: Id, created: nat, s: Session)
    ensures SameMode(w, Opened(Touch(w, id, created), id, s))
  {
    TouchKeepsMode(w, id, created);
    hide Touch;
  }

  lemma TouchedKeepsMode(w: World, id: Id, created: nat, positions: map<ObservationClass, nat>)
    ensures SameMode(w, Touch(w, id, created).(positions := positions))
  {
    TouchKeepsMode(w, id, created);
    hide Touch;
  }

  lemma OpenKeepsMode(w: World, id: Id, class_: ObservationClass, parent: Option<int>, semantic: bool, created: nat)
    ensures SameMode(w, Open(w, id, class_, parent, semantic, created).world)
  {
    var s := Session(parent, class_, 0, 0, Position(w, class_), if semantic then Some(ContractFor(class_)) else None,
                     Requesting);
    TouchKeepsMode(w, id, created);
    OpenedKeepsMode(w, id, created, s);
    TouchedKeepsMode(w, id, created, w.positions[class_ := Position(w, class_)]);
    hide Touch, Opened, SameMode, ContractFor, Position;
    assert SameMode(w, MarkIncomplete(w)) by { PrimitivesKeepMode(w, id, s); }
    hide MarkIncomplete;
  }

  lemma UpdateKeepsMode(w: World, id: Id, s: Session, path: Path, content: Bytes, reserved: nat)
    ensures SameMode(w, Update(w, id, s, path, content, reserved))
  {
  }

  lemma WriteKeepsMode(w: World, id: Id, stream: Stream, chunk: Bytes, room: bool, appended: nat)
    ensures SameMode(w, Write(w, id, stream, chunk, room, appended).world)
  {
    hide Update, Overflow, MarkIncomplete, File;
    if id in w.sessions {
      var s := Added(w.sessions[id], stream, |chunk|);
      var content := File(w, StreamFile(id, stream)) + (if appended >= |chunk| then chunk else chunk[..appended]);
      UpdateKeepsMode(w, id, s, StreamFile(id, stream), content, |chunk|);
      PrimitivesKeepMode(Update(w, id, s, StreamFile(id, stream), content, |chunk|), id, s);
      PrimitivesKeepMode(w, id, s);
    } else {
      PrimitivesKeepMode(w, id, Session(None, Clock, 0, 0, 0, None, Requesting));
    }
  }

  lemma DispatchKeepsMode(w: World, id: Id, codec: Codec, env: DispatchEnv)
    ensures SameMode(w, Dispatch(w, id, codec, env).world)
  {
    hide RequestOk, File, Update, SetSession, MarkIncomplete;
    if id in w.sessions {
      var s := w.sessions[id];
      SetThenMark(w, id, s.(state := Overflowed));
      SetThenMark(w, id, s.(state := Capturing));
      if env.recorded.Some? {
        var s1 := s.(responseBytes := |env.recorded.value|);
        SetThenMark(w, id, s1);
        UpdateKeepsMode(w, id, s1, ResponseFile(id), env.partly, |env.recorded.value|);
        UpdateKeepsMode(w, id, s1.(state := Replaying(0)), ResponseFile(id), env.recorded.value, |env.recorded.value|);
      }
    }
  }

  lemma SetThenMark(w: World, id: Id, s: Session)
    ensures SameMode(w, SetSession(w, id, s)) && SameMode(w, MarkIncomplete(SetSession(w, id, s)))
  {
    hide SetSession, MarkIncomplete;
    PrimitivesKeepMode(w, id, s);
    PrimitivesKeepMode(SetSession(w, id, s), id, s);
  }

  lemma SettledKeepsMode(w: World, id: Id, fate: Fate)
    requires id in w.sessions
    ensures SameMode(w, Settled(w, id, fate)) && SameMode(w, MarkIncomplete(Settled(w, id, fate)))
  {
    assert SameMode(w, Settled(w, id, fate));
    hide Settled, MarkIncomplete;
    PrimitivesKeepMode(Settled(w, id, fate), id, w.sessions[id]);
  }

  lemma StagedKeepsMode(w: World, s: Session, x: Exchange)
    ensures SameMode(w, Staged(w, s, x))
  {
    hide NewArtifacts, NewInteractions;
  }

  lemma CommitKeepsMode(w: World, id: Id, outcome: Outcome, readable: bool, recorded: bool)
    requires id in w.sessions
    ensures SameMode(w, Commit(w, id, outcome, readable, recorded).world)
  {
    var s := w.sessions[id];
    var x := ExchangeOf(w, id, outcome);
    SettledKeepsMode(w, id, Lost);
    StagedKeepsMode(w, s, x);
    StagedKeepsMode(MarkIncomplete(Settled(w, id, Lost)), s, x);
    if s.class_ in w.registrations { assert SameMode(Staged(w, s, x), Kept(w, id, x)) by { hide Staged; } }
    hide Kept, Staged, Settled, MarkIncomplete, File;
  }

  lemma FinishKeepsMode(w: World, id: Id, outcome: Outcome, position: nat, codec: Codec, readable: bool, recorded: bool)
    ensures SameMode(w, Finish(w, id, outcome, position, codec, readable, recorded).world)
  {
    hide PairOk, File, Commit, Settled, MarkIncomplete;
    if id in w.sessions {
      CommitKeepsMode(w, id, outcome, readable, recorded);
      SettledKeepsMode(w, id, Lost);
      SettledKeepsMode(w, id, Replayed);
    }
  }

  lemma MarkKeepsMode(w: World, class_: ObservationClass, parent: Option<int>, evidence: Bytes, room: bool,
                      stored: bool, recorded: bool)
    ensures SameMode(w, MarkUnowned(w, class_, parent, evidence, room, stored, recorded).world)
  {
    var w1 := w.(reserved := w.reserved + |evidence|);
    var w2 := Stored(w, evidence);
    var o := Observation(class_, parent, OfBytes(evidence), |w.observations|, None);
    StoredSame(w, evidence);
    var s := Session(None, Clock, 0, 0, 0, None, Requesting);
    PrimitivesKeepMode(w, 0, s);
    PrimitivesKeepMode(w1, 0, s);
    PrimitivesKeepMode(w2, 0, s);
    MarkedKeepsMode(w2, o);
    hide Stored, Marked, Dropped, MarkLost, MarkIncomplete;
  }

  lemma MarkedKeepsMode(w: World, o: Observation)
    ensures SameMode(w, Marked(w, o))
  {
  }

  lemma ReadKeepsMode(w: World, id: Id, readable: bool, wanted: nat)
    ensures SameMode(w, Read(w, id, readable, wanted).world)
  {
    hide File, ReadCount;
  }

  lemma AbandonKeepsMode(w: World, id: Id)
    ensures SameMode(w, Abandon(w, id).world)
  {
    hide Settled, MarkIncomplete;
    if id in w.sessions { SettledKeepsMode(w, id, Lost); }
  }

  lemma CoverKeepsMode(w: World, evidence: Bytes)
    ensures SameMode(w, BindCoverage(w, evidence).world)
  {
    hide MarkIncomplete;
    PrimitivesKeepMode(w, 0, Session(None, Clock, 0, 0, 0, None, Requesting));
  }

  lemma StepKeepsMode(w: World, step: Step, codec: Codec)
    ensures SameMode(w, Apply(w, step, codec))
  {
    hide Open, Write, Dispatch, Finish, MarkUnowned, Read, Abandon, BindCoverage, MarkIncomplete;
    match step
    case OpenStep(id, class_, parent, semantic, created) => OpenKeepsMode(w, id, class_, parent, semantic, created);
    case WriteStep(id, stream, chunk, room, appended) => WriteKeepsMode(w, id, stream, chunk, room, appended);
    case DispatchStep(id, env) => DispatchKeepsMode(w, id, codec, env);
    case FinishStep(id, outcome, position, readable, recorded) =>
      FinishKeepsMode(w, id, outcome, position, codec, readable, recorded);
    case MarkStep(class_, parent, evidence, room, stored, recorded) =>
      MarkKeepsMode(w, class_, parent, evidence, room, stored, recorded);
    case ReadStep(id, readable, wanted) => ReadKeepsMode(w, id, readable, wanted);
    case AbandonStep(id) => AbandonKeepsMode(w, id);
    case CoverStep(evidence) => CoverKeepsMode(w, evidence);
    case InvalidateStep => PrimitivesKeepMode(w, 0, Session(None, Clock, 0, 0, 0, None, Requesting));
  }

  // ---- what a successful close means -------------------------------------------------------------

  function CaptureRun(registrations: map<ObservationClass, Registration>, steps: seq<Step>, codec: Codec): World {
    Run(NewWorld(true, registrations, map[]), steps, codec)
  }

  lemma CaptureRunInv(registrations: map<ObservationClass, Registration>, steps: seq<Step>, codec: Codec)
    ensures var w := CaptureRun(registrations, steps, codec); Inv(w) && w.capture && w.first == map[]
  {
    hide Inv, Run;
    NewWorldOk(true, registrations, map[]);
    RunKeeps(NewWorld(true, registrations, map[]), steps, codec);
    RunKeepsMode(NewWorld(true, registrations, map[]), steps, codec);
  }

  /**
   * If a capture closes, every session it ever opened is committed exactly once: the slots of a class
   * are exactly its positions 0..n-1, and slots and observations correspond one to one.
   */
  lemma CloseCommitsEverySession(registrations: map<ObservationClass, Registration>, steps: seq<Step>, codec: Codec,
                                 env: CloseEnv)
    requires Close(CaptureRun(registrations, steps, codec), env).Ok?
    ensures var w := CaptureRun(registrations, steps, codec);
            && |w.history.sources| == |w.observations|
            && (forall c, p: nat :: Slot(c, p) in w.history.fates <==> p < Position(w, c))
            && (forall slot :: slot in w.history.fates ==>
                  && w.history.fates[slot].Committed? && w.history.fates[slot].index < |w.observations|
                  && w.history.sources[w.history.fates[slot].index] == Some(slot))
            && (forall k :: 0 <= k < |w.observations| ==>
                  && w.history.sources[k].Some? && w.history.sources[k].value in w.history.fates
                  && w.history.fates[w.history.sources[k].value] == Committed(k))
  {
    var w := CaptureRun(registrations, steps, codec);
    hide Run, CaptureRun;
    CaptureRunInv(registrations, steps, codec);
    hide CountsOk, LinksOk, EvidenceOk, TranscriptOk, FilesOk, References, TotalBytes;
    forall c, p: nat ensures Slot(c, p) in w.history.fates <==> p < Position(w, c) {
      assert SlotOk(w, Slot(c, p));
    }
    forall slot | slot in w.history.fates
      ensures w.history.fates[slot].Committed? && w.history.fates[slot].index < |w.observations|
      ensures w.history.sources[w.history.fates[slot].index] == Some(slot)
    {
      assert SlotOk(w, slot);
    }
    forall k | 0 <= k < |w.observations|
      ensures w.history.sources[k].Some? && w.history.sources[k].value in w.history.fates
      ensures w.history.fates[w.history.sources[k].value] == Committed(k)
    {
      assert ObservationOk(w, k);
    }
  }

  /** Every link is the number of links before it, when links grow and there are as many as interactions. */
  lemma {:induction false} EveryInteractionLinked(links: seq<Option<nat>>, n: nat)
    requires forall k :: 0 <= k < |links| && links[k].Some? ==> links[k].value < n
    requires forall k, m :: 0 <= k < m < |links| && links[k].Some? && links[m].Some? ==> links[k].value < links[m].value
    ensures CountLinked(links) <= n
    ensures CountLinked(links) == n ==> forall j: nat :: j < n ==> Some(j) in links
    decreases |links|
  {
    if links != [] {
      var init, last := links[..|links| - 1], links[|links| - 1];
      assert links == init + [last];
      if last.None? {
        EveryInteractionLinked(init, n);
      } else {
        EveryInteractionLinked(init, last.value);
      }
    }
  }

  /** The observations and the transcript of a closed capture are numbered without gaps and fully owned. */
  lemma CloseNumbersEverything(registrations: map<ObservationClass, Registration>, steps: seq<Step>, codec: Codec,
                               env: CloseEnv)
    requires Close(CaptureRun(registrations, steps, codec), env).Ok?
    ensures var w := CaptureRun(registrations, steps, codec);
            && |w.history.links| == |w.observations|
            && (forall k :: 0 <= k < |w.observations| ==>
                  w.observations[k].sequence == k && w.observations[k].owner.Some?)
            && (forall j :: 0 <= j < |w.interactions| ==> w.interactions[j].sequence == j && Some(j) in w.history.links)
            && (forall k :: 0 <= k < |w.observations| ==>
                  (w.history.links[k].Some? <==> IsDependencyClass(w.observations[k].class_)))
  {
    var w := CaptureRun(registrations, steps, codec);
    hide Run, CaptureRun;
    CaptureRunInv(registrations, steps, codec);
    hide CountsOk, FilesOk, References, TotalBytes, CountLinked;
    EveryInteractionLinked(w.history.links, |w.interactions|);
    forall k | 0 <= k < |w.observations|
      ensures w.observations[k].sequence == k && w.history.links[k].Some?
              <==> IsDependencyClass(w.observations[k].class_)
      ensures w.observations[k].sequence == k
    {
      assert ObservationOk(w, k);
    }
  }

  /**
   * The fence's numbers are the true counts: nothing was dropped or overflowed. Its zero for unowned
   * observations counts all marks except those lost to a local write or to the recorder.
   */
  lemma FenceCountsAreTrue(registrations: map<ObservationClass, Registration>, steps: seq<Step>, codec: Codec,
                           env: CloseEnv)
    requires Close(CaptureRun(registrations, steps, codec), env).Ok?
    ensures var w := CaptureRun(registrations, steps, codec);
            var fence := Close(w, env).value.fence;
            && fence.dropped == w.history.drops == 0 && !fence.overflowed
            && fence.count == |w.observations| && fence.digest == OfObservations(w.observations)
            && w.history.unownedMarks == w.history.unownedLost
            && (fence.unowned == w.history.unownedMarks <==> w.history.unownedLost == 0)
  {
    var w := CaptureRun(registrations, steps, codec);
    hide Run, CaptureRun;
    CaptureRunInv(registrations, steps, codec);
    hide LinksOk, EvidenceOk, TranscriptOk, FilesOk, References, TotalBytes, SlotsOk, SessionsOk, AllFilesOk;
    forall k | 0 <= k < |w.history.sources| ensures w.history.sources[k].Some? {
      assert ObservationOk(w, k);
    }
    NoneUnowned(w.history.sources);
  }

  lemma {:induction false} NoneUnowned(sources: seq<Option<Slot>>)
    requires forall k :: 0 <= k < |sources| ==> sources[k].Some?
    ensures CountUnowned(sources) == 0
    decreases |sources|
  {
    if sources != [] {
      NoneUnowned(sources[..|sources| - 1]);
    }
  }

  /** Where the observations of one class are, in order. */
  function ClassIndices(observations: seq<Observation>, class_: ObservationClass): (r: seq<nat>)
    ensures forall i :: 0 <= i < |r| ==> r[i] < |observations| && observations[r[i]].class_ == class_
    ensures forall i, j :: 0 <= i < j < |r| ==> r[i] < r[j]
    ensures forall k :: 0 <= k < |observations| && observations[k].class_ == class_ ==> k in r
  {
    if observations == [] then []
    else
      var n := |observations| - 1;
      var before := ClassIndices(observations[..n], class_);
      assert observations == observations[..n] + [observations[n]];
      before + (if observations[n].class_ == class_ then [n] else [])
  }

  lemma {:induction false} EvidencePerIndex(observations: seq<Observation>, class_: ObservationClass)
    ensures var r := ClassIndices(observations, class_);
            && |ClassEvidence(observations, class_)| == |r|
            && forall i :: 0 <= i < |r| ==> ClassEvidence(observations, class_)[i] == observations[r[i]].evidence
    decreases |observations|
  {
    if observations != [] {
      EvidencePerIndex(observations[..|observations| - 1], class_);
    }
  }

  lemma FirstElement(s: seq<nat>)
    ensures s == [] || exists k :: k in s
  {
    assert s == [] || s[0] in s;
  }

  /** An ascending sequence of indices that holds exactly the commits of `n` positions has `n` elements. */
  lemma {:induction false} OnePerPosition(fates: map<Slot, Fate>, class_: ObservationClass, n: nat, indices: seq<nat>)
    requires forall p: nat :: p < n ==> Slot(class_, p) in fates && fates[Slot(class_, p)].Committed?
    requires forall p: nat, q: nat :: p < q < n ==> fates[Slot(class_, p)].index != fates[Slot(class_, q)].index
    requires forall i, j :: 0 <= i < j < |indices| ==> indices[i] != indices[j]
    requires forall k :: k in indices <==> exists p: nat :: p < n && fates[Slot(class_, p)].index == k
    ensures |indices| == n
    decreases n
  {
    if n == 0 {
      FirstElement(indices);
    } else {
      var last := fates[Slot(class_, n - 1)].index;
      assert last in indices;
      var i :| 0 <= i < |indices| && indices[i] == last;
      var rest := indices[..i] + indices[i + 1..];
      forall k ensures k in rest <==> exists p: nat :: p < n - 1 && fates[Slot(class_, p)].index == k {
        assert k in rest <==> k in indices && k != last;
      }
      OnePerPosition(fates, class_, n - 1, rest);
    }
  }

  /** A session is committed as an observation of its class that carries its own evidence. */
  predicate Recorded(w: World, slot: Slot) {
    && slot in w.history.fates && w.history.fates[slot].Committed? && slot in w.history.exchanges
    && var k := w.history.fates[slot].index;
       && k < |w.observations| == |w.history.links| && w.observations[k].class_ == slot.class_
       && EvidenceOk(w, w.observations[k], w.history.links[k], slot, w.history.exchanges[slot])
  }

  lemma CommittedSession(registrations: map<ObservationClass, Registration>, steps: seq<Step>, codec: Codec, slot: Slot)
    requires var w := CaptureRun(registrations, steps, codec);
             slot in w.history.fates && w.history.fates[slot].Committed?
    ensures Recorded(CaptureRun(registrations, steps, codec), slot)
  {
    var w := CaptureRun(registrations, steps, codec);
    hide Run, CaptureRun;
    CaptureRunInv(registrations, steps, codec);
    hide EvidenceOk, FilesOk, CountsOk, LinksOk, TranscriptOk;
    assert SlotOk(w, slot);
    assert ObservationOk(w, w.history.fates[slot].index);
  }

  /** The observation at `k` is that of one of the class's sessions. */
  predicate CommitsOne(w: World, class_: ObservationClass, k: nat, p: nat) {
    p < Position(w, class_) && Slot(class_, p) in w.history.fates && w.history.fates[Slot(class_, p)] == Committed(k)
  }

  lemma ObservationOfClass(registrations: map<ObservationClass, Registration>, steps: seq<Step>, codec: Codec,
                           env: CloseEnv,
                           class_: ObservationClass, k: nat) returns (p: nat)
    requires Close(CaptureRun(registrations, steps, codec), env).Ok?
    requires var w := CaptureRun(registrations, steps, codec);
             k < |w.observations| && w.observations[k].class_ == class_
    ensures CommitsOne(CaptureRun(registrations, steps, codec), class_, k, p)
  {
    var w := CaptureRun(registrations, steps, codec);
    hide Run, CaptureRun, References, TotalBytes, Position, Close;
    CloseCommitsEverySession(registrations, steps, codec, env);
    p := w.history.sources[k].value.position;
    CommittedSession(registrations, steps, codec, w.history.sources[k].value);
    assert w.history.sources[k].value == Slot(class_, p);
  }

  lemma EachSessionOnce(registrations: map<ObservationClass, Registration>, steps: seq<Step>, codec: Codec,
                        env: CloseEnv,
                        class_: ObservationClass)
    requires Close(CaptureRun(registrations, steps, codec), env).Ok?
    ensures var w := CaptureRun(registrations, steps, codec);
            var order := ClassIndices(w.observations, class_);
            && |order| == Position(w, class_)
            && forall p: nat :: p < Position(w, class_) ==>
                 Recorded(w, Slot(class_, p)) && w.history.fates[Slot(class_, p)].index in order
  {
    hide Run, CaptureRun, Close, Position, EvidenceOk;
    var w := CaptureRun(registrations, steps, codec);
    var order, fates, n := ClassIndices(w.observations, class_), w.history.fates, Position(w, class_);
    CloseCommitsEverySession(registrations, steps, codec, env);
    forall p: nat | p < n ensures Recorded(w, Slot(class_, p)) && fates[Slot(class_, p)].index in order {
      CommittedSession(registrations, steps, codec, Slot(class_, p));
    }
    forall k | k in order ensures exists p: nat :: p < n && fates[Slot(class_, p)].index == k {
      var p := ObservationOfClass(registrations, steps, codec, env, class_, k);
    }
    OnePerPosition(fates, class_, n, order);
  }

  /**
   * A closure receipt is the class's sentinel coverage and then, in the order of their commits, the evidence
   * of its sessions: as many as it opened, each once, and each with that session's own evidence.
   */
  ghost predicate ReceiptCovers(w: World, receipt: seq<Digest>, class_: ObservationClass) {
    var order := ClassIndices(w.observations, class_);
    && |receipt| == 1 + |order| && |order| == Position(w, class_)
    && class_ in w.registrations && w.registrations[class_].coverage == Some(receipt[0])
    && (forall i :: 0 <= i < |order| ==> receipt[1 + i] == w.observations[order[i]].evidence)
    && (forall p: nat :: p < Position(w, class_) ==>
          Recorded(w, Slot(class_, p)) && w.history.fates[Slot(class_, p)].index in order)
  }

  lemma ReceiptIs(w: World, env: CloseEnv, class_: ObservationClass)
    requires Close(w, env).Ok?
    ensures var receipts := Close(w, env).value.fence.receipts;
            && class_ in receipts && class_ in w.registrations && w.registrations[class_].coverage.Some?
            && receipts[class_] == [w.registrations[class_].coverage.value] + ClassEvidence(w.observations, class_)
  {
    hide References, TotalBytes, ClassEvidence;
    assert class_ in ALL_CLASSES;
  }

  lemma ReceiptsCoverEverySession(registrations: map<ObservationClass, Registration>, steps: seq<Step>, codec: Codec,
                                  env: CloseEnv,
                                  class_: ObservationClass)
    requires Close(CaptureRun(registrations, steps, codec), env).Ok?
    ensures var w := CaptureRun(registrations, steps, codec);
            var receipts := Close(w, env).value.fence.receipts;
            class_ in receipts && ReceiptCovers(w, receipts[class_], class_)
  {
    hide Run, CaptureRun, Close, ClassEvidence, ClassIndices, Position, Recorded;
    var w := CaptureRun(registrations, steps, codec);
    ReceiptIs(w, env, class_);
    EachSessionOnce(registrations, steps, codec, env, class_);
    EvidencePerIndex(w.observations, class_);
  }

  /** Each committed session's evidence is the digest of its files' content, if no identifier was opened twice. */
  lemma CommittedEvidenceMatchesFiles(registrations: map<ObservationClass, Registration>, steps: seq<Step>,
                                      codec: Codec, slot: Slot)
    requires var w := CaptureRun(registrations, steps, codec); slot in w.history.exchanges
    ensures var w := CaptureRun(registrations, steps, codec);
            && slot in w.history.fates && w.history.fates[slot].Committed?
            && w.history.fates[slot].index < |w.observations| == |w.history.links|
            && var x := w.history.exchanges[slot];
            && var k := w.history.fates[slot].index;
            && EvidenceOk(w, w.observations[k], w.history.links[k], slot, x)
            && (!w.history.reused ==> File(w, RequestFile(x.id)) == x.request
                                      && File(w, ResponseFile(x.id)) == x.response)
  {
    var w := CaptureRun(registrations, steps, codec);
    hide Run, CaptureRun;
    CaptureRunInv(registrations, steps, codec);
    assert SlotOk(w, slot) && FilesOk(w, slot);
    assert ObservationOk(w, w.history.fates[slot].index);
  }

  /** The exception is real: a mark lost to a full disk leaves no trace and does not stop the close. */
  lemma LostMarkCloses(registrations: map<ObservationClass, Registration>, codec: Codec, env: CloseEnv,
                       evidence: Bytes, coverage: Bytes)
    requires registrations.Keys == ALL_CLASSES && forall c :: c in registrations ==> registrations[c].coverage.None?
    requires evidence != [] && |evidence| <= MAX_ARTIFACT_BYTES && env.valid && 0 < |coverage| <= MAX_EVIDENCE_BYTES
    ensures var steps := [MarkStep(ObservationClass.Clock, None, evidence, true, false, true), CoverStep(coverage)];
            var w := CaptureRun(registrations, steps, codec);
            w.history.unownedMarks == 1 && Close(w, env).Ok? && Close(w, env).value.fence.unowned == 0
  {
    var steps := [MarkStep(ObservationClass.Clock, None, evidence, true, false, true), CoverStep(coverage)];
    var w0 := NewWorld(true, registrations, map[]);
    var w1 := Apply(w0, steps[0], codec);
    assert steps[1..] == [steps[1]] && steps[1..][1..] == [];
    assert Run(w0, steps, codec) == Run(w1, steps[1..], codec) == Apply(w1, steps[1], codec);
  }
}
