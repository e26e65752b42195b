// The coordinator object: every method changes its fields exactly as the function of module World
// says, whose runs the laws of module WorldLaws are about.

module WorldCoordinator {
  import opened Arith
  import opened Classes
  import opened MapSums
  import opened Options
  import opened Semantics
  import W = World

  /** `digest_file`: reads buffers of 64 KiB and accepts only the declared length. */
  method DigestFile(content: Bytes, expected: nat) returns (digest: Option<W.Digest>)
    ensures digest == if |content| == expected then Some(W.OfBytes(content)) else None
  {
    var total := 0;
    var hashed: Bytes := [];
    while true
      invariant total == |hashed| <= |content| && hashed == content[..total] && total <= expected
      decreases |content| - total
    {
      var count := Min(65536, |content| - total);
      if count == 0 {
        break;
      }
      var buffer := content[total..total + count];
      total := total + count;
      if total > expected {
        return None;
      }
      hashed := hashed + buffer;
    }
    if total != expected {
      return None;
    }
    assert content[..total] == content;
    return Some(W.OfBytes(hashed));
  }

  class Coordinator {
    const capture: bool
    ghost const first: map<ObservationClass, nat>
    var registrations: map<ObservationClass, W.Registration>
    var sessions: map<W.Id, W.Session>
    var positions: map<ObservationClass, nat>
    var spool: map<W.Path, Bytes>
    var artifacts: seq<W.Artifact>
    var interactions: seq<W.Interaction>
    var observations: seq<W.Observation>
    var dropped: nat
    var incomplete: bool
    var overflowed: bool
    var reserved: nat
    ghost var history: W.History

    ghost function State(): W.World
      reads this
    {
      W.World(capture, first, registrations, sessions, positions, spool, artifacts, interactions, observations,
              dropped, incomplete, overflowed, reserved, history)
    }

    constructor (capture: bool, registrations: map<ObservationClass, W.Registration>, first: map<ObservationClass, nat>)
      ensures State() == W.NewWorld(capture, registrations, first)
    {
      this.capture, this.first, this.registrations := capture, first, registrations;
      sessions, positions, spool := map[], first, map[];
      artifacts, interactions, observations := [], [], [];
      dropped, incomplete, overflowed, reserved := 0, false, false, 0;
      history := W.History(map[], map[], [], [], {}, false, 0, 0, 0, 0);
    }

    function File(path: W.Path): Bytes
      reads this
    {
      if path in spool then spool[path] else []
    }

    method InvalidateAmbientContext()
      modifies this`incomplete
      ensures State() == W.MarkIncomplete(old(State()))
    {
      incomplete := true;
    }

    method BindNativeSentinelCoverage(evidence: Bytes) returns (result: W.Result<()>)
      modifies this`registrations, this`incomplete
      ensures var reply := W.BindCoverage(old(State()), evidence); State() == reply.world && result == reply.result
    {
      if evidence == [] || |evidence| > W.MAX_EVIDENCE_BYTES {
        incomplete := true;
        return W.Err(W.CaptureLimit);
      }
      if registrations.Keys != W.ALL_CLASSES || exists c :: c in registrations && registrations[c].coverage.Some? {
        incomplete := true;
        return W.Err(W.WorldNotClosed);
      }
      registrations := map c | c in registrations :: registrations[c].(coverage := Some(W.OfCoverage(c, evidence)));
      return W.Ok(());
    }

    method OpenObservation(id: W.Id, class_: ObservationClass, parent: Option<int>, semantic: bool, created: nat)
      returns (result: W.Result<nat>)
      modifies this
      ensures var reply := W.Open(old(State()), id, class_, parent, semantic, created);
              State() == reply.world && result == reply.result
    {
      hide W.Touch, W.Opened, ContractFor;
      if capture && class_ !in registrations {
        incomplete := true;
        return W.Err(W.WorldNotClosed);
      }
      if |sessions| >= W.MAX_SESSIONS || id in sessions {
        incomplete := true;
        return W.Err(W.CaptureLimit);
      }
      TouchKeepsPositions(State(), id, created);
      CreateFiles(id, created);
      if created < 2 {
        return W.Err(W.Storage);
      }
      var position := if class_ in positions then positions[class_] else 0;
      if position + 1 > W.MAX_SESSION_POSITION {
        positions := positions[class_ := position];
        return W.Err(W.CaptureLimit);
      }
      EnterSession(id, W.Session(parent, class_, 0, 0, position, if semantic then Some(ContractFor(class_)) else None,
                                 W.Requesting));
      return W.Ok(position);
    }

    method CreateFiles(id: W.Id, created: nat)
      modifies this`spool, this`history
      ensures State() == W.Touch(old(State()), id, created)
    {
      history := W.Touch(State(), id, created).history;
      if created >= 1 {
        spool := spool[W.RequestFile(id) := []];
      }
      if created >= 2 {
        spool := spool[W.ResponseFile(id) := []];
      }
    }

    method EnterSession(id: W.Id, session: W.Session)
      modifies this`positions, this`sessions, this`history
      ensures State() == W.Opened(old(State()), id, session)
    {
      history := W.Opened(State(), id, session).history;
      positions := positions[session.class_ := session.position + 1];
      sessions := sessions[id := session];
    }

    method OverflowSession(id: W.Id)
      modifies this`sessions, this`incomplete, this`overflowed, this`dropped, this`history
      ensures State() == W.Overflow(old(State()), id)
    {
      if id in sessions {
        sessions := sessions[id := sessions[id].(state := W.Overflowed)];
      }
      incomplete := true;
      overflowed := true;
      dropped := SatAdd(dropped, 1);
      history := history.(drops := history.drops + 1);
    }

    method WriteObservation(id: W.Id, stream: W.Stream, chunk: Bytes, room: bool, appended: nat)
      returns (result: W.Result<()>)
      modifies this
      ensures var reply := W.Write(old(State()), id, stream, chunk, room, appended);
              State() == reply.world && result == reply.result
    {
      hide W.Overflow;
      if chunk == [] || |chunk| > W.MAX_CHUNK_BYTES {
        OverflowSession(id);
        return W.Err(W.CaptureLimit);
      }
      if id !in sessions {
        return W.Err(W.NotFound);
      }
      var session := sessions[id];
      var validState := (session.state.Requesting? && stream.RequestStream?)
          || (session.state.Capturing? && stream.ResponseStream?);
      if !validState {
        OverflowSession(id);
        return W.Err(W.InvalidTransition);
      }
      var currentBytes := if stream.RequestStream? then session.requestBytes else session.responseBytes;
      var nextBytes := currentBytes + |chunk|;
      if nextBytes > W.MAX_ARTIFACT_BYTES || !room {
        OverflowSession(id);
        return W.Err(W.CaptureLimit);
      }
      hide W.Update, W.MarkIncomplete;
      if stream.RequestStream? {
        result := AppendChunk(id, session.(requestBytes := nextBytes), W.RequestFile(id), chunk, appended);
      } else {
        result := AppendChunk(id, session.(responseBytes := nextBytes), W.ResponseFile(id), chunk, appended);
      }
    }

    /** The counts change first; a failed append leaves part of the chunk. */
    method AppendChunk(id: W.Id, session: W.Session, path: W.Path, chunk: Bytes, appended: nat)
      returns (result: W.Result<()>)
      modifies this`sessions, this`spool, this`reserved, this`incomplete
      ensures result == if appended >= |chunk| then W.Ok(()) else W.Err(W.Storage)
      ensures appended >= |chunk| ==>
                State() == W.Update(old(State()), id, session, path, old(File(path)) + chunk, |chunk|)
      ensures appended < |chunk| ==>
                State() == W.MarkIncomplete(W.Update(old(State()), id, session, path,
                                                     old(File(path)) + chunk[..appended], |chunk|))
    {
      reserved := reserved + |chunk|;
      sessions := sessions[id := session];
      if appended < |chunk| {
        spool := spool[path := File(path) + chunk[..appended]];
        incomplete := true;
        return W.Err(W.Storage);
      }
      spool := spool[path := File(path) + chunk];
      return W.Ok(());
    }

    method DispatchObservation(id: W.Id, codec: Codec, env: W.DispatchEnv) returns (result: W.Result<W.Action>)
      modifies this`sessions, this`incomplete, this`reserved, this`spool
      ensures var reply := W.Dispatch(old(State()), id, codec, env); State() == reply.world && result == reply.result
    {
      hide RequestOk;
      if id !in sessions {
        return W.Err(W.NotFound);
      }
      var session := sessions[id];
      if session.contract.Some? && !env.readable {
        return W.Err(W.Storage);
      }
      if !RequestOk(codec, session.contract, session.class_, File(W.RequestFile(id)), session.requestBytes) {
        return W.Err(W.InvalidTransition);
      }
      if session.state != W.Requesting || session.requestBytes == 0 {
        sessions := sessions[id := session.(state := W.Overflowed)];
        incomplete := true;
        return W.Err(W.InvalidTransition);
      }
      if capture {
        sessions := sessions[id := session.(state := W.Capturing)];
        return W.Ok(W.CaptureAction);
      }
      if !env.readable {
        return W.Err(W.Storage);
      }
      if env.recorded.None? {
        return W.Err(W.External);
      }
      var recorded := env.recorded.value;
      session := session.(responseBytes := |recorded|);
      sessions := sessions[id := session];
      if !env.room {
        incomplete := true;
        return W.Err(W.CaptureLimit);
      }
      reserved := reserved + |recorded|;
      if !env.stored {
        spool := spool[W.ResponseFile(id) := env.partly];
        return W.Err(W.Storage);
      }
      spool := spool[W.ResponseFile(id) := recorded];
      sessions := sessions[id := session.(state := W.Replaying(0))];
      return W.Ok(W.ReplayAction);
    }

    method ReadObservationResponse(id: W.Id, readable: bool, wanted: nat) returns (result: W.Result<W.ReadResult>)
      modifies this`sessions
      ensures var reply := W.Read(old(State()), id, readable, wanted); State() == reply.world && result == reply.result
    {
      if id !in sessions {
        return W.Err(W.NotFound);
      }
      var session := sessions[id];
      if !session.state.Replaying? {
        return W.Err(W.InvalidTransition);
      }
      if !readable {
        return W.Err(W.Storage);
      }
      var file := File(W.ResponseFile(id));
      var offset := session.state.offset;
      var chunk: Bytes := [];
      if offset <= |file| {
        chunk := file[offset..offset + W.ReadCount(|file| - offset, wanted)];
      }
      offset := offset + |chunk|;
      sessions := sessions[id := session.(state := W.Replaying(offset))];
      return W.Ok(W.ReadResult(chunk, offset == session.responseBytes));
    }

    method FinishObservation(id: W.Id, outcome: Outcome, position: nat, codec: Codec, readable: bool, recorded: bool)
      returns (result: W.Result<()>)
      modifies this
      ensures var reply := W.Finish(old(State()), id, outcome, position, codec, readable, recorded);
              State() == reply.world && result == reply.result
    {
      hide PairOk, W.Commit, Removed;
      if id !in sessions {
        return W.Err(W.NotFound);
      }
      ghost var before := State();
      var session := sessions[id];
      sessions := Removed(sessions, id);
      ghost var ok := W.Finish(before, id, outcome, position, codec, readable, recorded).result.Ok?;
      history := W.Settled(before, id, if ok && !capture then W.Replayed else W.Lost).history;
      var responseComplete := session.state.Capturing?
          || (session.state.Replaying? && session.state.offset == session.responseBytes);
      if !responseComplete || session.requestBytes == 0 || session.responseBytes == 0
         || position > W.MAX_SESSION_POSITION {
        incomplete := true;
        return W.Err(W.InvalidTransition);
      }
      if position != session.position {
        incomplete := true;
        return W.Err(W.InvalidTransition);
      }
      if session.contract.Some? && !readable {
        incomplete := true;
        return W.Err(W.Storage);
      }
      if !PairOk(codec, session.contract, File(W.RequestFile(id)), session.requestBytes, File(W.ResponseFile(id)),
                 session.responseBytes, outcome) {
        incomplete := true;
        return W.Err(W.InvalidTransition);
      }
      if capture {
        result := CommitSession(before, session, id, outcome, readable, recorded);
        if result.Err? {
          incomplete := true;
        }
        return;
      }
      return W.Ok(());
    }

    /** Called after the session left `sessions`; on an error the caller marks the world incomplete. */
    method CommitSession(ghost before: W.World, session: W.Session, id: W.Id, outcome: Outcome, readable: bool,
                         recorded: bool)
      returns (result: W.Result<()>)
      requires id in before.sessions && session == before.sessions[id] && State() == W.Settled(before, id, W.Lost)
      modifies this`artifacts, this`interactions, this`observations, this`history
      ensures var reply := W.Commit(before, id, outcome, readable, recorded);
              result == reply.result && reply.world == if result.Ok? then State() else W.MarkIncomplete(State())
    {
      hide Removed, W.Evidence, W.Staged, W.Settled, W.Kept, W.CommitFault;
      SettledSame(before, id);
      var fault, requestDigest, responseDigest := DigestFiles(before, session, id, readable);
      if fault.Some? {
        return W.Err(fault.value);
      }
      ghost var x := W.ExchangeOf(before, id, outcome);
      StagedThenMarked(before, id, session, x);
      var evidence := CommitEvidence(before, x, session, id, outcome, requestDigest, responseDigest);
      if session.class_ !in registrations {
        return W.Err(W.WorldNotClosed);
      }
      if !recorded {
        return W.Err(W.External);
      }
      RecordObservation(before, x, session, id, evidence);
      return W.Ok(());
    }

    /** The observation takes its number and owner. */
    method RecordObservation(ghost before: W.World, ghost x: W.Exchange, session: W.Session, id: W.Id,
                             evidence: W.Digest)
      requires id in before.sessions && session == before.sessions[id] && session.class_ in registrations
      requires State() == W.Staged(W.Settled(before, id, W.Lost), session, x)
      requires evidence == W.Evidence(before, session, x)
               && W.NewInteractions(before, session, x) == W.NewInteractions(W.Settled(before, id, W.Lost), session, x)
      modifies this`observations, this`history
      ensures session.class_ in before.registrations && State() == W.Kept(before, id, x)
    {
      hide Removed, W.Evidence, W.NewArtifacts, W.NewInteractions;
      observations := observations
          + [W.Observation(session.class_, session.parent, evidence, |observations|,
                           Some(registrations[session.class_].adapter))];
      history := W.Kept(before, id, x).history;
    }

    /** The two digests, or the reason why nothing may be committed. */
    method DigestFiles(ghost before: W.World, session: W.Session, id: W.Id, readable: bool)
      returns (fault: Option<W.Fault>, requestDigest: W.Digest, responseDigest: W.Digest)
      requires id in before.sessions && session == before.sessions[id]
      requires observations == before.observations && spool == before.spool && interactions == before.interactions
      ensures fault == W.CommitFault(before, id, readable)
      ensures fault.None? ==> requestDigest == W.OfBytes(W.File(before, W.RequestFile(id)))
      ensures fault.None? ==> responseDigest == W.OfBytes(W.File(before, W.ResponseFile(id)))
      ensures fault.None? ==> |W.File(before, W.ResponseFile(id))| == session.responseBytes
    {
      requestDigest, responseDigest := W.OfBytes([]), W.OfBytes([]);
      if |observations| >= W.MAX_EVENTS {
        return Some(W.CaptureLimit), requestDigest, responseDigest;
      }
      if !readable {
        return Some(W.Storage), requestDigest, responseDigest;
      }
      var request := DigestFile(File(W.RequestFile(id)), session.requestBytes);
      if request.None? {
        return Some(W.WorldNotClosed), requestDigest, responseDigest;
      }
      var response := DigestFile(File(W.ResponseFile(id)), session.responseBytes);
      if response.None? {
        return Some(W.WorldNotClosed), requestDigest, responseDigest;
      }
      if W.IsDependencyClass(session.class_) && |interactions| > W.U16_MAX {
        return Some(W.CaptureLimit), requestDigest, responseDigest;
      }
      return None, request.value, response.value;
    }

    /** `commit_dependency_interaction` or `commit_state_artifact`. */
    method CommitEvidence(ghost before: W.World, ghost x: W.Exchange, session: W.Session, id: W.Id, outcome: Outcome,
                          requestDigest: W.Digest, responseDigest: W.Digest)
      returns (evidence: W.Digest)
      requires x.id == id && x.outcome == outcome && x.parent == session.parent && before.interactions == interactions
      requires W.NewInteractions(before, session, x) == W.NewInteractions(State(), session, x)
      requires requestDigest == W.OfBytes(x.request) && responseDigest == W.OfBytes(x.response)
               && |x.response| == session.responseBytes
      modifies this`artifacts, this`interactions
      ensures State() == W.Staged(old(State()), session, x) && evidence == W.Evidence(before, session, x)
    {
      if W.IsDependencyClass(session.class_) {
        var interaction := W.Interaction(session.parent, outcome, requestDigest, responseDigest, |interactions|,
                                         session.position);
        artifacts := artifacts + [W.Artifact(W.RequestFile(id), None), W.Artifact(W.ResponseFile(id), None)];
        interactions := interactions + [interaction];
        evidence := W.OfInteraction(interaction);
      } else {
        var reference := W.Reference(responseDigest, session.responseBytes,
                                     W.StateUri(session.class_, requestDigest, session.position, outcome));
        artifacts := artifacts + [W.Artifact(W.ResponseFile(id), Some(reference))];
        evidence := W.OfReference(reference);
        assert interactions == interactions + [];
      }
    }

    method AbandonObservation(id: W.Id) returns (result: W.Result<()>)
      modifies this`sessions, this`incomplete, this`history
      ensures var reply := W.Abandon(old(State()), id); State() == reply.world && result == reply.result
    {
      hide Removed;
      if id !in sessions {
        return W.Err(W.NotFound);
      }
      history := W.Abandon(State(), id).world.history;
      sessions := Removed(sessions, id);
      incomplete := true;
      return W.Ok(());
    }

    method MarkUnowned(class_: ObservationClass, parent: Option<int>, evidence: Bytes, room: bool, stored: bool,
                       recorded: bool)
      returns (result: W.Result<()>)
      modifies this
      ensures var reply := W.MarkUnowned(old(State()), class_, parent, evidence, room, stored, recorded);
              State() == reply.world && result == reply.result
    {
      if !capture {
        incomplete := true;
        return W.Err(W.WorldNotClosed);
      }
      history := W.MarkUnowned(State(), class_, parent, evidence, room, stored, recorded).world.history;
      if evidence == [] || |observations| >= W.MAX_EVENTS || |evidence| > W.MAX_ARTIFACT_BYTES || !room {
        overflowed := true;
        dropped := SatAdd(dropped, 1);
        return W.Err(W.CaptureLimit);
      }
      reserved := reserved + |evidence|;
      var sequence := |observations|;
      var digest := W.OfBytes(evidence);
      if !stored {
        return W.Err(W.Storage);
      }
      spool := spool[W.UnownedFile(sequence) := evidence];
      artifacts := artifacts + [W.Artifact(W.UnownedFile(sequence),
                                           Some(W.Reference(digest, |evidence|, W.UnownedUri(sequence, digest))))];
      if !recorded {
        return W.Err(W.External);
      }
      observations := observations + [W.Observation(class_, parent, digest, sequence, None)];
      return W.Ok(());
    }

    /** Collects each class's digests: its coverage, then the evidence of its observations as they come. */
    method WorldClosure() returns (digests: map<ObservationClass, seq<W.Digest>>)
      requires registrations.Keys == W.ALL_CLASSES && forall c :: c in registrations ==> registrations[c].coverage.Some?
      ensures digests == W.Receipts(registrations, observations)
    {
      digests := map c | c in registrations :: [registrations[c].coverage.value];
      CollectedNone(registrations, digests);
      hide Collected;
      assert observations[..0] == [];
      for k := 0 to |observations|
        invariant Collected(registrations, observations[..k], digests)
      {
        var o := observations[k];
        CollectedNext(registrations, observations, k, digests);
        digests := digests[o.class_ := (if o.class_ in digests then digests[o.class_] else []) + [o.evidence]];
      }
      assert observations[..|observations|] == observations;
      CollectedAll(registrations, observations, digests);
    }

    /** The total of the referenced artifacts and the fence, if the capture may close at all. */
    method Close(env: W.CloseEnv) returns (result: W.Result<W.Closed>)
      ensures result == W.Close(State(), env)
    {
      var unowned := false;
      for k := 0 to |observations|
        invariant unowned <==> exists j :: 0 <= j < k && observations[j].owner.None?
      {
        if observations[k].owner.None? {
          unowned := true;
        }
      }
      var sentinelComplete := forall c :: c in registrations ==> registrations[c].coverage.Some?;
      if overflowed || incomplete || sessions != map[] || dropped != 0 || unowned
         || registrations.Keys != W.ALL_CLASSES || !sentinelComplete {
        assert !W.MayClose(State());
        return W.Err(W.WorldNotClosed);
      }
      assert W.MayClose(State());
      if interactions != [] {
        if !env.room {
          return W.Err(W.CaptureLimit);
        }
        if !env.stored {
          return W.Err(W.Storage);
        }
        if !capture || !env.recorded {
          return W.Err(W.External);
        }
      }
      var references := W.References(artifacts);
      var total := 0;
      for k := 0 to |references|
        invariant total + W.TotalBytes(references[k..]) == W.TotalBytes(references)
      {
        assert references[k..][1..] == references[k + 1..];
        total := total + references[k].size;
      }
      assert references[|references|..] == [];
      if total > W.MAX_WORLD_BYTES {
        return W.Err(W.CaptureLimit);
      }
      if !env.valid {
        return W.Err(W.External);
      }
      var owners := map c | c in registrations :: registrations[c].adapter;
      var receipts := WorldClosure();
      return W.Ok(W.Closed(W.Fence(dropped, overflowed, 0, |observations|, W.OfObservations(observations), owners,
                                   receipts),
                           W.Checkpoint(references, total, |references|), interactions));
    }
  }

  /** What the digests hold after some of the observations. */
  predicate Collected(registrations: map<ObservationClass, W.Registration>, observations: seq<W.Observation>,
                      digests: map<ObservationClass, seq<W.Digest>>) {
    && digests.Keys == registrations.Keys
    && forall c :: c in registrations ==>
         registrations[c].coverage.Some?
         && digests[c] == [registrations[c].coverage.value] + W.ClassEvidence(observations, c)
  }

  lemma CollectedNone(registrations: map<ObservationClass, W.Registration>,
                      digests: map<ObservationClass, seq<W.Digest>>)
    requires digests.Keys == registrations.Keys
    requires forall c :: c in registrations ==>
               registrations[c].coverage.Some? && digests[c] == [registrations[c].coverage.value]
    ensures Collected(registrations, [], digests)
  {
  }

  lemma CollectedNext(registrations: map<ObservationClass, W.Registration>, observations: seq<W.Observation>, k: nat,
                      digests: map<ObservationClass, seq<W.Digest>>)
    requires k < |observations| && registrations.Keys == W.ALL_CLASSES
             && Collected(registrations, observations[..k], digests)
    ensures var o := observations[k];
            && o.class_ in digests
            && Collected(registrations, observations[..k + 1], digests[o.class_ := digests[o.class_] + [o.evidence]])
  {
    assert observations[..k + 1][..k] == observations[..k];
    EveryClass(observations[k].class_);
  }

  lemma EveryClass(class_: ObservationClass)
    ensures class_ in W.ALL_CLASSES
  {
  }

  lemma CollectedAll(registrations: map<ObservationClass, W.Registration>, observations: seq<W.Observation>,
                     digests: map<ObservationClass, seq<W.Digest>>)
    requires Collected(registrations, observations, digests)
    ensures digests == W.Receipts(registrations, observations)
  {
  }

  lemma SettledSame(before: W.World, id: W.Id)
    requires id in before.sessions
    ensures var settled := W.Settled(before, id, W.Lost);
            && settled.observations == before.observations && settled.spool == before.spool
            && settled.interactions == before.interactions && settled.registrations == before.registrations
  {
  }

  lemma TouchKeepsPositions(w: W.World, id: W.Id, created: nat)
    ensures W.Touch(w, id, created).positions == w.positions
  {
  }

  /** Staging and marking incomplete commute. */
  lemma StagedThenMarked(before: W.World, id: W.Id, session: W.Session, x: W.Exchange)
    requires id in before.sessions && session == before.sessions[id]
    ensures var settled := W.Settled(before, id, W.Lost);
            W.Staged(W.MarkIncomplete(settled), session, x) == W.MarkIncomplete(W.Staged(settled, session, x))
    ensures W.NewInteractions(before, session, x) == W.NewInteractions(W.Settled(before, id, W.Lost), session, x)
  {
    var settled := W.Settled(before, id, W.Lost);
    assert settled.interactions == before.interactions;
    hide W.Settled, W.NewArtifacts;
  }
}
