// The engine validates a dependency session a second time, on its own copy of the bytes. This never
// refuses a call that the coordinator would accept, but for the bound on a semantic record.

module EngineVerdicts {
  import opened Arith
  import opened Classes
  import opened EngineSession
  import opened Options
  import opened Semantics
  import opened World

  /** The buffer that a stream fills. */
  function Buffer(d: Dep, stream: Stream): Bytes {
    if stream.RequestStream? then d.request else d.response
  }

  /** A dependency's write is accepted iff the coordinator accepts it and the record stays within its own bound. */
  lemma WriteVerdict(e: Engine, id: Id, stream: Stream, chunk: Bytes, room: bool, appended: nat, codec: Codec)
    requires AllInStep(e, codec) && id in e.live
    ensures WriteObservation(e, id, stream, chunk, room, appended).result.Ok? <==>
              && Write(e.world, id, stream, chunk, room, appended).result.Ok?
              && (e.live[id].Some? ==>
                    |Buffer(e.live[id].value, stream)| + |chunk| <= MAX_SEMANTIC_RECORD_BYTES)
  {
    Instance(e, id, codec);
    if Write(e.world, id, stream, chunk, room, appended).result.Ok? {
      WriteAccepted(e.world, id, stream, chunk, room, appended);
      WriteBounded(e.world, id, stream, chunk, room, appended);
    }
    hide AllInStep, Write, File, ReadRecord, Invalidate;
  }

  lemma WriteBounded(w: World, id: Id, stream: Stream, chunk: Bytes, room: bool, appended: nat)
    requires Write(w, id, stream, chunk, room, appended).result.Ok?
    ensures 0 < |chunk| <= MAX_CHUNK_BYTES
  {
  }

  /** A dispatch is accepted iff the coordinator accepts it. */
  lemma DispatchVerdict(e: Engine, id: Id, codec: Codec, env: DispatchEnv)
    requires AllInStep(e, codec) && id in e.live
    ensures DispatchObservation(e, id, codec, env).result.Ok? <==> Dispatch(e.world, id, codec, env).result.Ok?
    ensures DispatchObservation(e, id, codec, env).result.Ok? ==>
              DispatchObservation(e, id, codec, env).result == Dispatch(e.world, id, codec, env).result
  {
    Instance(e, id, codec);
    if Dispatch(e.world, id, codec, env).result.Ok? {
      DispatchAccepted(e.world, id, codec, env);
    }
    hide AllInStep, Dispatch, File, ReadRecord, Invalidate;
  }

  /** A finish is accepted iff the coordinator accepts it. */
  lemma FinishVerdict(e: Engine, id: Id, outcome: Outcome, position: nat, codec: Codec, readable: bool, recorded: bool)
    requires AllInStep(e, codec) && id in e.live
    ensures FinishObservation(e, id, outcome, position, codec, readable, recorded).result.Ok? <==>
              Finish(e.world, id, outcome, position, codec, readable, recorded).result.Ok?
  {
    Instance(e, id, codec);
    if Finish(e.world, id, outcome, position, codec, readable, recorded).result.Ok? {
      FinishAccepted(e.world, id, outcome, position, codec, readable, recorded);
      if e.live[id].Some? { ValidatorsAgree(e, id, outcome, codec); }
    }
    hide AllInStep, Finish, File, ReadRecord, Invalidate, DepFinish, InStep;
  }
}
