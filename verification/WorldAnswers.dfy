// When each call of the coordinator is accepted, told from the spooled files of a world in which nothing
// has gone wrong yet; and that a refused write, finish or abandonment leaves a world that cannot close.

module WorldAnswers {
  import opened Arith
  import opened Classes
  import opened MapSums
  import opened Options
  import opened Semantics
  import opened World
  import L = WorldLaws

  /** Nothing has gone wrong, and the session is open. */
  ghost predicate Sound(w: World, id: Id) {
    L.Inv(w) && !w.incomplete && id in w.sessions
  }

  lemma Lengths(w: World, id: Id)
    requires Sound(w, id)
    ensures w.sessions[id].requestBytes == |File(w, RequestFile(id))|
    ensures w.sessions[id].state.Capturing? || w.sessions[id].state.Replaying? ==>
              w.sessions[id].responseBytes == |File(w, ResponseFile(id))|
    ensures w.sessions[id].state.Capturing? ==> w.capture
    ensures w.sessions[id].state.Replaying? ==> !w.capture
  {
    assert L.SessionOk(w, id);
    hide L.Inv;
  }

  /** A write is accepted iff its stream is open, the chunk and the file stay within bounds, and all of it is stored. */
  lemma WriteVerdict(w: World, id: Id, stream: Stream, chunk: Bytes, room: bool, appended: nat)
    requires Sound(w, id)
    ensures var reply, path := Write(w, id, stream, chunk, room, appended), StreamFile(id, stream);
            && (reply.result.Ok? <==>
                  && w.sessions[id].state == (if stream.RequestStream? then Requesting else Capturing)
                  && 0 < |chunk| <= MAX_CHUNK_BYTES && |File(w, path)| + |chunk| <= MAX_ARTIFACT_BYTES && room
                  && |chunk| <= appended)
            && (reply.result.Ok? ==> File(reply.world, path) == File(w, path) + chunk && !reply.world.incomplete)
            && (reply.result.Err? ==> reply.world.incomplete)
            && (reply.result == Err(InvalidTransition) <==>
                  0 < |chunk| <= MAX_CHUNK_BYTES
                  && w.sessions[id].state != (if stream.RequestStream? then Requesting else Capturing))
  {
    Lengths(w, id);
    hide L.Inv, Overflow;
    OverflowSpoils(w, id);
  }

  lemma OverflowSpoils(w: World, id: Id)
    ensures Overflow(w, id).incomplete
  {
  }

  /** A dispatch is accepted iff the request is not empty and valid; in replay its response must be found and stored. */
  lemma DispatchVerdict(w: World, id: Id, codec: Codec, env: DispatchEnv)
    requires Sound(w, id)
    ensures var reply, s, request := Dispatch(w, id, codec, env), w.sessions[id], File(w, RequestFile(id));
            && (reply.result.Ok? <==>
                  && s.state.Requesting? && request != [] && (s.contract.Some? ==> env.readable)
                  && RequestOk(codec, s.contract, s.class_, request, |request|)
                  && (w.capture || (env.readable && env.recorded.Some? && env.room && env.stored)))
            && (reply.result == Err(External) <==>
                  && s.state.Requesting? && request != [] && env.readable
                  && RequestOk(codec, s.contract, s.class_, request, |request|) && !w.capture && env.recorded.None?)
  {
    Lengths(w, id);
    hide L.Inv, RequestOk;
  }

  /** The response was written, or the recorded one was read to its end. */
  predicate Answered(w: World, id: Id)
    requires id in w.sessions
  {
    match w.sessions[id].state
    case Capturing => true
    case Replaying(offset) => offset == |File(w, ResponseFile(id))|
    case _ => false
  }

  /** What a finish needs besides the pair itself, to become an observation. */
  predicate Recordable(w: World, id: Id, readable: bool, recorded: bool)
    requires id in w.sessions
  {
    && readable && recorded && |w.observations| < MAX_EVENTS && w.sessions[id].class_ in w.registrations
    && (IsDependencyClass(w.sessions[id].class_) ==> |w.interactions| <= U16_MAX)
  }

  /**
   * A finish succeeds iff the session is answered, both files hold something and are a valid pair with this
   * outcome, the position is the session's, and in capture the observation can be recorded. The session is
   * gone in any case; after a refusal the world cannot close.
   */
  lemma FinishVerdict(w: World, id: Id, outcome: Outcome, position: nat, codec: Codec, readable: bool, recorded: bool)
    requires Sound(w, id)
    ensures var reply, s := Finish(w, id, outcome, position, codec, readable, recorded), w.sessions[id];
            var request, response := File(w, RequestFile(id)), File(w, ResponseFile(id));
            && (reply.result.Ok? <==>
                  && Answered(w, id) && request != [] && response != []
                  && position == s.position <= MAX_SESSION_POSITION
                  && (s.contract.Some? ==> readable)
                  && PairOk(codec, s.contract, request, |request|, response, |response|, outcome)
                  && (w.capture ==> Recordable(w, id, readable, recorded)))
            && id !in reply.world.sessions && (reply.result.Err? ==> reply.world.incomplete)
            && (reply.result.Ok? ==> !reply.world.incomplete)
  {
    Lengths(w, id);
    CommitVerdict(w, id, outcome, readable, recorded);
    SettledIs(w, id, Lost);
    SettledIs(w, id, Replayed);
    hide L.Inv, PairOk, Commit, Settled;
  }

  lemma SettledIs(w: World, id: Id, fate: Fate)
    requires id in w.sessions
    ensures id !in Settled(w, id, fate).sessions && Settled(w, id, fate).incomplete == w.incomplete
  {
  }

  lemma CommitVerdict(w: World, id: Id, outcome: Outcome, readable: bool, recorded: bool)
    requires id in w.sessions && !w.incomplete
    ensures var reply, s := Commit(w, id, outcome, readable, recorded), w.sessions[id];
            && (reply.result.Ok? <==>
                  && Recordable(w, id, readable, recorded) && |File(w, RequestFile(id))| == s.requestBytes
                  && |File(w, ResponseFile(id))| == s.responseBytes)
            && id !in reply.world.sessions && (reply.world.incomplete <==> reply.result.Err?)
  {
    SettledIs(w, id, Lost);
    var s, x := w.sessions[id], ExchangeOf(w, id, outcome);
    StagedIs(MarkIncomplete(Settled(w, id, Lost)), s, x);
    if s.class_ in w.registrations { KeptIs(w, id, x); }
    hide Settled, Staged, Kept, ExchangeOf, File;
  }

  lemma StagedIs(w: World, s: Session, x: Exchange)
    ensures Staged(w, s, x).sessions == w.sessions && Staged(w, s, x).incomplete == w.incomplete
  {
  }

  lemma KeptIs(w: World, id: Id, x: Exchange)
    requires id in w.sessions && w.sessions[id].class_ in w.registrations
    ensures id !in Kept(w, id, x).sessions && Kept(w, id, x).incomplete == w.incomplete
  {
    hide NewArtifacts, NewInteractions, Evidence;
  }

  /** Evidence without a session is recorded iff the capture has room for it and takes it; a lack of room is counted. */
  lemma MarkVerdict(w: World, class_: ObservationClass, parent: Option<int>, evidence: Bytes, room: bool, stored: bool,
                    recorded: bool)
    requires L.Inv(w)
    ensures var reply := MarkUnowned(w, class_, parent, evidence, room, stored, recorded);
            && (reply.result.Ok? <==> w.capture && 0 < |evidence| <= MAX_ARTIFACT_BYTES
                                      && |w.observations| < MAX_EVENTS && room && stored && recorded)
            && (reply.result == Err(CaptureLimit) <==> reply.world.history.drops > w.history.drops)
            && (reply.result == Err(CaptureLimit) ==> reply.world.overflowed)
            && (!w.capture ==> reply.world.incomplete)
  {
    hide L.Inv, Stored, Marked, Dropped, MarkLost;
    DroppedIs(w);
    MarkLostIs(w.(reserved := w.reserved + |evidence|));
    MarkLostIs(Stored(w, evidence));
    StoredIs(w, evidence);
    MarkedIs(Stored(w, evidence), Observation(class_, parent, OfBytes(evidence), |w.observations|, None));
  }

  lemma DroppedIs(w: World)
    ensures Dropped(w).history.drops == w.history.drops + 1 && Dropped(w).overflowed
  {
  }

  lemma MarkLostIs(w: World)
    ensures MarkLost(w).history.drops == w.history.drops
  {
  }

  lemma StoredIs(w: World, evidence: Bytes)
    ensures Stored(w, evidence).history == w.history
  {
  }

  lemma MarkedIs(w: World, o: Observation)
    ensures Marked(w, o).history.drops == w.history.drops
  {
  }

  /**
   * A world closes iff nothing went wrong, every session was finished, each observation has an owner, each class
   * was registered with its coverage, and what is handed over fits, is stored and is accepted.
   */
  lemma CloseVerdict(w: World, env: CloseEnv)
    requires L.Inv(w)
    ensures Close(w, env).Ok? <==>
              && w.history.drops == 0 && !w.incomplete && (forall id :: id !in w.sessions)
              && L.CountUnowned(w.history.sources) == 0
              && (forall c :: c in ALL_CLASSES <==> c in w.registrations)
              && (forall c :: c in w.registrations ==> w.registrations[c].coverage.Some?)
              && (w.interactions != [] ==> w.capture && env.room && env.stored && env.recorded)
              && TotalBytes(References(w.artifacts)) <= MAX_WORLD_BYTES && env.valid
  {
    OwnersAre(w);
    assert (forall id :: id !in w.sessions) ==> w.sessions == map[];
    assert w.registrations.Keys == ALL_CLASSES <==> forall c :: c in ALL_CLASSES <==> c in w.registrations;
    hide References, TotalBytes, Receipts;
  }

  lemma OwnersAre(w: World)
    requires L.Inv(w)
    ensures L.CountUnowned(w.history.sources) == 0 <==>
              forall k :: 0 <= k < |w.observations| ==> w.observations[k].owner.Some?
  {
    forall k | 0 <= k < |w.observations| ensures w.observations[k].owner.Some? <==> w.history.sources[k].Some? {
      assert L.ObservationOk(w, k);
    }
    NoneUnowned(w.history.sources);
    hide L.Inv, L.ObservationOk;
  }

  lemma {:induction false} NoneUnowned(sources: seq<Option<Slot>>)
    ensures L.CountUnowned(sources) == 0 <==> forall k :: 0 <= k < |sources| ==> sources[k].Some?
    decreases |sources|
  {
    if sources != [] {
      NoneUnowned(sources[..|sources| - 1]);
    }
  }
}
