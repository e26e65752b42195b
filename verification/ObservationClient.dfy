// The .NET observation session as a client of the coordinator: its own state, counts and position
// follow the server's, so it only sends calls that the server's state allows.

module ObservationClient {
  import opened Classes
  import opened Options
  import opened Semantics
  import E = EngineSession
  import W = World
  import WC = WorldCoordinator

  datatype ClientState = Request | Capture | Replay | ReplayEof | Finished

  // ---- what the server rejects because of its session's state ----------------------------------------

  predicate WriteRejected(w: W.World, id: W.Id, stream: W.Stream, chunk: Bytes) {
    chunk == [] || |chunk| > W.MAX_CHUNK_BYTES || id !in w.sessions || !W.Accepts(w.sessions[id], stream)
  }

  predicate DispatchRejected(w: W.World, id: W.Id) {
    id !in w.sessions || !w.sessions[id].state.Requesting? || w.sessions[id].requestBytes == 0
  }

  predicate ReadRejected(w: W.World, id: W.Id) {
    id !in w.sessions || !w.sessions[id].state.Replaying?
  }

  predicate FinishRejected(w: W.World, id: W.Id, position: nat) {
    id !in w.sessions
    || var s := w.sessions[id];
       !W.ResponseComplete(s) || s.requestBytes == 0 || s.responseBytes == 0 || position > W.MAX_SESSION_POSITION
       || position != s.position
  }

  /** These rejections are the server's own: each is an error of the corresponding operation. */
  lemma RejectionsAreErrors(w: W.World, id: W.Id, stream: W.Stream, chunk: Bytes, room: bool, appended: nat,
                            codec: Codec, env: W.DispatchEnv, wanted: nat, outcome: Outcome, position: nat,
                            readable: bool, recorded: bool)
    ensures WriteRejected(w, id, stream, chunk) ==> W.Write(w, id, stream, chunk, room, appended).result.Err?
    ensures DispatchRejected(w, id) ==> W.Dispatch(w, id, codec, env).result.Err?
    ensures ReadRejected(w, id) ==> W.Read(w, id, readable, wanted).result.Err?
    ensures FinishRejected(w, id, position) ==>
              W.Finish(w, id, outcome, position, codec, readable, recorded).result.Err?
  {
    hide RequestOk, PairOk, W.Commit, W.Settled, W.Overflow, W.Update;
  }

  // ---- the simulation ---------------------------------------------------------------------------------

  /** The client's view of its session is the server's. */
  predicate Follows(state: ClientState, requestBytes: nat, responseBytes: nat, position: nat, w: W.World, id: W.Id) {
    state.Finished? ||
    (&& id in w.sessions
     && var s := w.sessions[id];
        && s.position == position <= W.MAX_SESSION_POSITION && s.requestBytes == requestBytes
        && match state
           case Request => s.state.Requesting? && responseBytes == 0 && (w.capture ==> s.responseBytes == 0)
           case Capture => s.state.Capturing? && w.capture && requestBytes > 0 && s.responseBytes == responseBytes
           case Replay => s.state.Replaying? && !w.capture && requestBytes > 0
           case ReplayEof => s.state.Replaying? && !w.capture && requestBytes > 0 && s.state.offset == s.responseBytes
           case Finished => true)
  }

  /** After an accepted call the server's session is what the client thinks. */
  lemma WriteFollows(w: W.World, id: W.Id, stream: W.Stream, chunk: Bytes, room: bool, appended: nat)
    requires id in w.sessions && W.Write(w, id, stream, chunk, room, appended).result.Ok?
    ensures var w' := W.Write(w, id, stream, chunk, room, appended).world;
            id in w'.sessions && w'.sessions[id] == W.Added(w.sessions[id], stream, |chunk|) && w'.capture == w.capture
  {
    hide W.Overflow, W.File;
  }

  lemma DispatchFollows(w: W.World, id: W.Id, codec: Codec, env: W.DispatchEnv)
    requires W.Dispatch(w, id, codec, env).result.Ok?
    ensures var w' := W.Dispatch(w, id, codec, env).world;
            && id in w.sessions && id in w'.sessions && w'.capture == w.capture
            && W.Dispatch(w, id, codec, env).result.value == (if w.capture then W.CaptureAction else W.ReplayAction)
            && if w.capture then w'.sessions[id] == w.sessions[id].(state := W.Capturing)
               else env.recorded.Some? && w'.sessions[id] == w.sessions[id].(state := W.Replaying(0),
                                                                             responseBytes := |env.recorded.value|)
  {
    hide RequestOk, W.File;
  }

  lemma ReadFollows(w: W.World, id: W.Id, readable: bool, wanted: nat)
    requires W.Read(w, id, readable, wanted).result.Ok?
    ensures var w' := W.Read(w, id, readable, wanted).world; var r := W.Read(w, id, readable, wanted).result.value;
            && id in w.sessions && id in w'.sessions && w'.capture == w.capture
            && w.sessions[id].state.Replaying?
            && w'.sessions[id] == w.sessions[id].(state := w'.sessions[id].state) && w'.sessions[id].state.Replaying?
            && (r.end <==> w'.sessions[id].state.offset == w'.sessions[id].responseBytes)
  {
    hide W.File, W.ReadCount;
  }

  class ObservationSession {
    const bridge: WC.Coordinator
    const id: W.Id
    const sessionPosition: nat
    var requestBytes: nat
    var responseBytes: nat
    var state: ClientState

    ghost predicate Valid()
      reads this, bridge
    {
      Follows(state, requestBytes, responseBytes, sessionPosition, bridge.State(), id)
    }

    /** Created for a session that the server has just opened. */
    constructor (bridge: WC.Coordinator, id: W.Id, sessionPosition: nat)
      requires id in bridge.sessions && bridge.sessions[id].state.Requesting? && bridge.sessions[id].requestBytes == 0
      requires bridge.sessions[id].responseBytes == 0
               && bridge.sessions[id].position == sessionPosition <= W.MAX_SESSION_POSITION
      ensures Valid() && state == Request && this.bridge == bridge && this.id == id
              && this.sessionPosition == sessionPosition
    {
      this.bridge, this.id, this.sessionPosition := bridge, id, sessionPosition;
      requestBytes, responseBytes, state := 0, 0, Request;
    }

    /** The cleanup call may find the session gone; its error is ignored. */
    method AbandonLocked()
      modifies this`state, bridge
      ensures state == Finished
      ensures bridge.State() == if old(state).Finished? then old(bridge.State())
                                else W.Abandon(old(bridge.State()), id).world
      ensures E.Elsewhere(old(bridge.State()), bridge.State(), id)
    {
      hide E.Elsewhere, W.Abandon;
      E.AbandonElsewhere(bridge.State(), id);
      E.Unchanged(bridge.State(), id);
      if state == Finished {
        return;
      }
      var ignored := bridge.AbandonObservation(id);
      state := Finished;
    }

    method Abandon()
      requires Valid()
      modifies this`state, bridge
      ensures Valid() && state == Finished
      ensures !old(state).Finished? ==> id in old(bridge.sessions)
      ensures E.Elsewhere(old(bridge.State()), bridge.State(), id)
    {
      AbandonLocked();
    }

    /** `sent` says that the call went to the server; the server's state then allowed it. */
    method Write(stream: W.Stream, chunk: Bytes, room: bool, appended: nat) returns (ok: bool, ghost sent: bool)
      requires Valid()
      modifies this, bridge
      ensures Valid()
      ensures sent <==> old(state) == (if stream.RequestStream? then Request else Capture)
                        && 0 < |chunk| <= W.MAX_CHUNK_BYTES
      ensures sent ==> !WriteRejected(old(bridge.State()), id, stream, chunk)
      ensures !sent ==> !ok && state == old(state) && bridge.State() == old(bridge.State())
      ensures sent ==> ok == W.Write(old(bridge.State()), id, stream, chunk, room, appended).result.Ok?
      ensures ok ==> bridge.State() == W.Write(old(bridge.State()), id, stream, chunk, room, appended).world
      ensures sent ==> state == if ok then old(state) else Finished
      ensures E.Elsewhere(old(bridge.State()), bridge.State(), id)
    {
      hide W.Write, W.Abandon, E.Elsewhere;
      E.Unchanged(bridge.State(), id);
      E.WriteElsewhere(bridge.State(), id, stream, chunk, room, appended);
      sent := false;
      var required := if stream.RequestStream? then Request else Capture;
      if state != required || chunk == [] || |chunk| > W.MAX_CHUNK_BYTES {
        return false, false;
      }
      sent := true;
      var reply := bridge.WriteObservation(id, stream, chunk, room, appended);
      if reply.Err? {
        ghost var between := bridge.State();
        AbandonLocked();
        E.Trans(old(bridge.State()), between, bridge.State(), id);
        return false, true;
      }
      WriteFollows(old(bridge.State()), id, stream, chunk, room, appended);
      if stream.RequestStream? {
        requestBytes := requestBytes + |chunk|;
      } else {
        responseBytes := responseBytes + |chunk|;
      }
      ok := true;
    }

    method Dispatch(codec: Codec, env: W.DispatchEnv) returns (action: Option<W.Action>, ghost sent: bool)
      requires Valid()
      modifies this`state, bridge
      ensures Valid()
      ensures sent <==> old(state).Request? && requestBytes > 0
      ensures sent ==> !DispatchRejected(old(bridge.State()), id)
      ensures !sent ==> action.None? && state == old(state) && bridge.State() == old(bridge.State())
      ensures sent ==> (action.Some? <==> W.Dispatch(old(bridge.State()), id, codec, env).result.Ok?)
      ensures action.Some? ==> bridge.State() == W.Dispatch(old(bridge.State()), id, codec, env).world
      ensures sent ==> state == if action.None? then Finished else if action.value.CaptureAction? then Capture
                                                                   else Replay
      ensures action == Some(W.ReplayAction) ==>
                env.recorded.Some? && id in bridge.sessions && bridge.sessions[id].responseBytes == |env.recorded.value|
      ensures E.Elsewhere(old(bridge.State()), bridge.State(), id)
    {
      hide W.Dispatch, W.Abandon, E.Elsewhere;
      E.Unchanged(bridge.State(), id);
      E.DispatchElsewhere(bridge.State(), id, codec, env);
      if state != Request || requestBytes == 0 {
        return None, false;
      }
      var reply := bridge.DispatchObservation(id, codec, env);
      if reply.Err? {
        ghost var between := bridge.State();
        AbandonLocked();
        E.Trans(old(bridge.State()), between, bridge.State(), id);
        return None, true;
      }
      DispatchFollows(old(bridge.State()), id, codec, env);
      state := if reply.value.CaptureAction? then Capture else Replay;
      return Some(reply.value), true;
    }

    method ReadResponse(readable: bool, wanted: nat) returns (chunk: Option<W.ReadResult>, ghost sent: bool)
      requires Valid()
      modifies this`state, bridge
      ensures Valid()
      ensures sent <==> old(state).Replay?
      ensures sent ==> !ReadRejected(old(bridge.State()), id)
      ensures !sent ==> chunk.None? && state == old(state) && bridge.State() == old(bridge.State())
      ensures sent ==> (chunk.Some? <==> W.Read(old(bridge.State()), id, readable, wanted).result.Ok?)
      ensures chunk.Some? ==>
                W.Read(old(bridge.State()), id, readable, wanted) == W.Reply(bridge.State(), W.Ok(chunk.value))
      ensures sent ==> state == if chunk.None? then Finished else if chunk.value.end then ReplayEof else Replay
      ensures sent && chunk.Some? ==>
                id in old(bridge.sessions) && id in bridge.sessions
                && bridge.sessions[id].responseBytes == old(bridge.sessions)[id].responseBytes
      ensures E.Elsewhere(old(bridge.State()), bridge.State(), id)
    {
      hide W.Read, W.Abandon, E.Elsewhere;
      E.Unchanged(bridge.State(), id);
      E.ReadElsewhere(bridge.State(), id, readable, wanted);
      if state != Replay {
        return None, false;
      }
      var reply := bridge.ReadObservationResponse(id, readable, wanted);
      if reply.Err? {
        ghost var between := bridge.State();
        AbandonLocked();
        E.Trans(old(bridge.State()), between, bridge.State(), id);
        return None, true;
      }
      ReadFollows(old(bridge.State()), id, readable, wanted);
      if reply.value.end {
        state := ReplayEof;
      }
      return Some(reply.value), true;
    }

    /** The one exception: a replay of an empty recorded response ends at once and cannot be finished. */
    method Finish(outcome: Outcome, codec: Codec, readable: bool, recorded: bool) returns (ok: bool, ghost sent: bool)
      requires Valid()
      modifies this`state, bridge
      ensures Valid()
      ensures sent <==> (old(state).Capture? && responseBytes > 0) || old(state).ReplayEof?
      ensures sent ==> id in old(bridge.sessions)
      ensures sent ==> (FinishRejected(old(bridge.State()), id, sessionPosition)
                        <==> old(bridge.sessions)[id].responseBytes == 0)
      ensures sent && old(state).Capture? ==> !FinishRejected(old(bridge.State()), id, sessionPosition)
      ensures !sent ==> !ok && state == old(state) && bridge.State() == old(bridge.State())
      ensures sent ==> ok == W.Finish(old(bridge.State()), id, outcome, sessionPosition, codec, readable,
                                      recorded).result.Ok? && state == Finished
      ensures E.Elsewhere(old(bridge.State()), bridge.State(), id)
    {
      hide W.Finish, W.Abandon, E.Elsewhere;
      E.Unchanged(bridge.State(), id);
      E.FinishElsewhere(bridge.State(), id, outcome, sessionPosition, codec, readable, recorded);
      var valid := state == Capture && responseBytes > 0;
      valid := valid || state == ReplayEof;
      if !valid {
        return false, false;
      }
      var reply := bridge.FinishObservation(id, outcome, sessionPosition, codec, readable, recorded);
      if reply.Err? {
        ghost var between := bridge.State();
        AbandonLocked();
        E.Trans(old(bridge.State()), between, bridge.State(), id);
        return false, true;
      }
      state := Finished;
      return true, true;
    }
  }

  /** A call of one client leaves every other client of the same server as it was. */
  lemma OthersFollow(w: W.World, w': W.World, id: W.Id, other: W.Id, state: ClientState, requestBytes: nat,
                     responseBytes: nat, position: nat)
    requires E.Elsewhere(w, w', id) && other != id && Follows(state, requestBytes, responseBytes, position, w, other)
    ensures Follows(state, requestBytes, responseBytes, position, w', other)
  {
    assert E.SameSession(w, w', other);
  }

  // ---- every run of one client ------------------------------------------------------------------------

  datatype ClientCall =
    | WriteCall(stream: W.Stream, chunk: Bytes, room: bool, appended: nat)
    | DispatchCall(env: W.DispatchEnv)
    | ReadCall(readable: bool, wanted: nat)
    | FinishCall(outcome: Outcome, readable: bool, recorded: bool)
    | AbandonCall

  /** No dispatch is answered with an empty recorded response. */
  predicate NoEmptyResponse(calls: seq<ClientCall>) {
    forall i :: 0 <= i < |calls| && calls[i].DispatchCall? ==> calls[i].env.recorded != Some([])
  }

  /** One call; `rejected` says that it was sent and that the server's state forbids it. */
  method Call(client: ObservationSession, codec: Codec, call: ClientCall) returns (ghost rejected: bool)
    requires client.Valid()
    requires client.state.Replay? || client.state.ReplayEof? ==>
               client.id in client.bridge.sessions && client.bridge.sessions[client.id].responseBytes > 0
    requires call.DispatchCall? ==> call.env.recorded != Some([])
    modifies client, client.bridge
    ensures client.Valid() && !rejected
    ensures client.state.Replay? || client.state.ReplayEof? ==>
              client.id in client.bridge.sessions && client.bridge.sessions[client.id].responseBytes > 0
  {
    ghost var w, id, sent := client.bridge.State(), client.id, false;
    match call {
      case WriteCall(stream, chunk, room, appended) =>
        var ok;
        ok, sent := client.Write(stream, chunk, room, appended);
        rejected := sent && WriteRejected(w, id, stream, chunk);
      case DispatchCall(env) =>
        var action;
        action, sent := client.Dispatch(codec, env);
        rejected := sent && DispatchRejected(w, id);
      case ReadCall(readable, wanted) =>
        var chunk;
        chunk, sent := client.ReadResponse(readable, wanted);
        rejected := sent && ReadRejected(w, id);
      case FinishCall(outcome, readable, recorded) =>
        var ok;
        ok, sent := client.Finish(outcome, codec, readable, recorded);
        rejected := sent && FinishRejected(w, id, client.sessionPosition);
      case AbandonCall =>
        client.Abandon();
        rejected := false;
    }
  }

  /**
   * Whatever a fresh client is asked to do, in any order: as long as no recorded response is empty it never
   * sends a call that the server rejects for its state, and it takes the response for finished only when
   * the server's offset is at its end.
   */
  method AnyCalls(client: ObservationSession, codec: Codec, calls: seq<ClientCall>) returns (ghost rejected: bool)
    requires client.Valid() && client.state == Request && NoEmptyResponse(calls)
    modifies client, client.bridge
    ensures !rejected
    ensures client.state == ReplayEof ==>
              && client.id in client.bridge.sessions
              && client.bridge.sessions[client.id].state == W.Replaying(client.bridge.sessions[client.id].responseBytes)
  {
    rejected := false;
    for k := 0 to |calls|
      invariant client.Valid() && !rejected
      invariant client.state.Replay? || client.state.ReplayEof? ==>
                  client.id in client.bridge.sessions && client.bridge.sessions[client.id].responseBytes > 0
    {
      ghost var now := Call(client, codec, calls[k]);
      rejected := rejected || now;
    }
  }

  // The three calls before the finish of a session whose recorded response is empty.

  function Fresh(): W.World {
    W.Open(W.NewWorld(false, map[], map[]), 1, ObservationClass.Clock, None, false, 2).world
  }

  function Asked(): W.World {
    W.Write(Fresh(), 1, W.RequestStream, [1], true, 1).world
  }

  function EmptyAnswer(): W.DispatchEnv {
    W.DispatchEnv(true, Some([]), true, true, [])
  }

  lemma FreshIs()
    ensures var w := Fresh();
            1 in w.sessions && w.sessions[1] == W.Session(None, ObservationClass.Clock, 0, 0, 0, None, W.Requesting)
            && !w.capture
  {
  }

  lemma AskedIs()
    ensures W.Write(Fresh(), 1, W.RequestStream, [1], true, 1).result.Ok?
    ensures var w := Asked();
            1 in w.sessions && w.sessions[1] == W.Session(None, ObservationClass.Clock, 1, 0, 0, None, W.Requesting)
            && !w.capture
  {
    hide Fresh;
    FreshIs();
  }

  lemma AnsweredIs(codec: Codec)
    ensures var reply := W.Dispatch(Asked(), 1, codec, EmptyAnswer());
            && reply.result == W.Ok(W.ReplayAction) && 1 in reply.world.sessions
            && reply.world.sessions[1].state == W.Replaying(0) && reply.world.sessions[1].responseBytes == 0
            && W.File(reply.world, W.ResponseFile(1)) == []
  {
    hide Fresh, Asked;
    AskedIs();
  }

  lemma DrainedIs(w: W.World)
    requires 1 in w.sessions && w.sessions[1].state == W.Replaying(0) && w.sessions[1].responseBytes == 0
    requires W.File(w, W.ResponseFile(1)) == []
    ensures var reply := W.Read(w, 1, true, 1);
            && reply.result == W.Ok(W.ReadResult([], true)) && 1 in reply.world.sessions
            && reply.world.sessions[1].responseBytes == 0
  {
  }

  /** The exception, run: an empty recorded response is read to its end, and the finish is then rejected. */
  method EmptyResponseCannotFinish(codec: Codec) returns (ok: bool, ghost sent: bool, ghost rejected: bool)
    ensures sent && rejected && !ok
  {
    hide W.Write, W.Dispatch, W.Read, W.Finish, E.Elsewhere;
    var bridge := new WC.Coordinator(false, map[], map[]);
    var position := bridge.OpenObservation(1, ObservationClass.Clock, None, false, 2);
    FreshIs();
    hide W.Open, Fresh;
    var client := new ObservationSession(bridge, 1, 0);
    var wrote, action, chunk;
    wrote, sent := client.Write(W.RequestStream, [1], true, 1);
    AskedIs();
    assert bridge.State() == Asked();
    AnsweredIs(codec);
    action, sent := client.Dispatch(codec, EmptyAnswer());
    DrainedIs(bridge.State());
    chunk, sent := client.ReadResponse(true, 1);
    rejected := FinishRejected(bridge.State(), 1, 0);
    RejectionsAreErrors(bridge.State(), 1, W.RequestStream, [], true, 0, codec, EmptyAnswer(), 1, Outcome.Response, 0,
                        true, true);
    ok, sent := client.Finish(Outcome.Response, codec, true, true);
  }
}
