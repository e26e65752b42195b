// What an opened dependency is: its request is spooled, validated and dispatched, and a failed opening
// leaves no handle.

module EngineOpening {
  import opened Arith
  import opened Classes
  import opened EngineModes
  import opened EngineSession
  import opened MapSums
  import opened Options
  import opened Semantics
  import opened World

  /** The session of `id` in a world, and the file of its request. */
  predicate Spooled(w: World, id: Id, s: Session, request: Bytes) {
    id in w.sessions && w.sessions[id] == s && File(w, RequestFile(id)) == request
  }

  function NewSession(class_: ObservationClass, parent: Option<int>, position: nat): Session {
    Session(parent, class_, 0, 0, position, Some(ContractFor(class_)), Requesting)
  }

  lemma OpenedIs(e: Engine, id: Id, class_: ObservationClass, parent: Option<int>, created: nat)
    requires OpenObservation(e, id, class_, parent, created).result.Ok?
    ensures var e', position := OpenObservation(e, id, class_, parent, created).engine, Position(e.world, class_);
            && OpenObservation(e, id, class_, parent, created).result.value == position
            && e'.live == e.live[id := ForClass(class_)] && e'.world.capture == e.world.capture
            && Spooled(e'.world, id, NewSession(class_, parent, position), [])
  {
    hide ContractFor, Position;
  }

  /** A chunk of the request is added to the buffer and to the file. */
  lemma ChunkIs(e: Engine, id: Id, s: Session, chunk: Bytes, room: bool, appended: nat)
    requires id in e.live && e.live[id].Some? && Spooled(e.world, id, s, e.live[id].value.request)
    requires WriteObservation(e, id, RequestStream, chunk, room, appended).result.Ok?
    ensures var e' := WriteObservation(e, id, RequestStream, chunk, room, appended).engine;
            var d := e.live[id].value.(request := e.live[id].value.request + chunk);
            && e'.live == e.live[id := Some(d)] && e'.world.capture == e.world.capture
            && Spooled(e'.world, id, s.(requestBytes := s.requestBytes + |chunk|), d.request)
  {
    WriteAccepted(e.world, id, RequestStream, chunk, room, appended);
    hide Write, File;
  }

  lemma {:induction false} RequestIs(e: Engine, id: Id, s: Session, record: Bytes, room: bool, appended: nat)
    requires id in e.live && e.live[id].Some? && Spooled(e.world, id, s, e.live[id].value.request)
    requires WriteRecord(e, id, RequestStream, record, room, appended).result.Ok?
    ensures var e' := WriteRecord(e, id, RequestStream, record, room, appended).engine;
            var d := e.live[id].value.(request := e.live[id].value.request + record);
            && e'.live == e.live[id := Some(d)] && e'.world.capture == e.world.capture
            && Spooled(e'.world, id, s.(requestBytes := s.requestBytes + |record|), d.request)
    decreases |record|
  {
    hide WriteObservation, Spooled;
    var d := e.live[id].value;
    if record == [] {
      assert d.request + record == d.request;
    } else {
      var count := Min(MAX_CHUNK_BYTES, |record|);
      ChunkIs(e, id, s, record[..count], room, appended);
      var first := WriteObservation(e, id, RequestStream, record[..count], room, appended).engine;
      assert (d.request + record[..count]) + record[count..] == d.request + record;
      RequestIs(first, id, s.(requestBytes := s.requestBytes + count), record[count..], room, appended);
    }
  }

  /** What a dispatched session is: capturing, or replaying a response that was recorded. */
  predicate Dispatched(w: World, id: Id, s: Session, recorded: Option<Bytes>) {
    if w.capture then w.sessions.Keys >= {id} && w.sessions[id] == s.(state := Capturing)
    else && recorded.Some? && File(w, ResponseFile(id)) == recorded.value && id in w.sessions
         && w.sessions[id] == s.(state := Replaying(0), responseBytes := |recorded.value|)
  }

  lemma DispatchedIs(e: Engine, id: Id, s: Session, codec: Codec, env: DispatchEnv)
    requires id in e.live && e.live[id].Some? && Spooled(e.world, id, s, e.live[id].value.request)
    requires DispatchObservation(e, id, codec, env).result.Ok?
    ensures var e', d := DispatchObservation(e, id, codec, env).engine, e.live[id].value;
            var record := ReadRecord(codec, Dependency, RequestRecord, d.request, |d.request|);
            && record.Some? && d.validatedRequest.None? && d.response == []
            && e'.live == e.live[id := Some(d.(validatedRequest := record))] && e'.world.capture == e.world.capture
            && DispatchObservation(e, id, codec, env).result.value == ActionOf(e.world.capture)
            && File(e'.world, RequestFile(id)) == d.request && Dispatched(e'.world, id, s, env.recorded)
  {
    DispatchAccepted(e.world, id, codec, env);
    hide Dispatch, File, ReadRecord, RequestOk;
  }

  /**
   * A dependency that was opened is a live handle on a session at the next position of its class, with
   * the given parent. Its request file holds the request's canonical bytes, it is dispatched, and the
   * handle is bound to that position, to that request and to the coordinator's mode.
   */
  lemma OpenDependencyMeans(e: Engine, id: Id, request: Record, parent: Option<int>, created: nat, codec: Codec,
                            env: Env, denv: DispatchEnv)
    requires OpenDependency(e, id, request, parent, created, codec, env, denv).result.Ok?
    ensures var e' := OpenDependency(e, id, request, parent, created, codec, env, denv).engine;
            var class_, bytes := codec.classOf(Dependency, request), codec.encode(Dependency, RequestRecord, request);
            var position, action := Position(e.world, class_), ActionOf(e.world.capture);
            var record := ReadRecord(codec, Dependency, RequestRecord, bytes, |bytes|);
            && codec.valid(Dependency, RequestRecord, request) && record.Some?
            && (RoundTrips(codec) ==> record == Some(request))
            && OpenDependency(e, id, request, parent, created, codec, env, denv).result.value == action
            && e'.live == e.live[id := Some(Dep(class_, Some(action), Some(position), bytes, [], record, None))]
            && File(e'.world, RequestFile(id)) == bytes
            && Dispatched(e'.world, id, NewSession(class_, parent, position).(requestBytes := |bytes|), denv.recorded)
  {
    hide OpenObservation, WriteRecord, DispatchObservation, Invalidate, Position, ReadRecord, File, Dispatched;
    var class_, bytes := codec.classOf(Dependency, request), codec.encode(Dependency, RequestRecord, request);
    var s := NewSession(class_, parent, Position(e.world, class_));
    OpenedIs(e, id, class_, parent, created);
    var start := OpenObservation(e, id, class_, parent, created);
    var bound := Bind(start.engine, id, start.engine.live[id].value.(position := Some(start.result.value)));
    RequestIs(bound, id, s, bytes, env.room, env.appended);
    assert [] + bytes == bytes;
    var written := WriteRecord(bound, id, RequestStream, bytes, env.room, env.appended).engine;
    DispatchedIs(written, id, s.(requestBytes := |bytes|), codec, denv);
    if RoundTrips(codec) { RecordReadsBack(codec, request, bytes); }
  }

  lemma RecordReadsBack(codec: Codec, request: Record, bytes: Bytes)
    requires RoundTrips(codec) && bytes == codec.encode(Dependency, RequestRecord, request)
    requires codec.valid(Dependency, RequestRecord, request)
    requires ReadRecord(codec, Dependency, RequestRecord, bytes, |bytes|).Some?
    ensures ReadRecord(codec, Dependency, RequestRecord, bytes, |bytes|) == Some(request)
  {
  }

  // ---- calls that fail ------------------------------------------------------------------------------

  predicate Held(e: Engine, id: Id) {
    id in e.live && id in e.world.sessions
  }

  /** The handle and its session are gone, and the operation's world can no longer close. */
  predicate Gone(e: Engine, id: Id) {
    id !in e.live && id !in e.world.sessions && e.world.incomplete
  }

  lemma GivenUp(e: Engine, id: Id)
    requires Held(e, id) || Gone(e, id)
    ensures Gone(Invalidate(e, id), id)
  {
    AbandonElsewhere(e.world, id);
    hide Settled, Elsewhere;
  }

  lemma WriteHolds(w: World, id: Id, stream: Stream, chunk: Bytes, room: bool, appended: nat)
    requires id in w.sessions
    ensures id in Write(w, id, stream, chunk, room, appended).world.sessions
  {
    OverflowHolds(w, id);
    hide File, Overflow, Added, Accepts, StreamBytes, StreamFile;
  }

  lemma OverflowHolds(w: World, id: Id)
    requires id in w.sessions
    ensures id in Overflow(w, id).sessions
  {
  }

  lemma DispatchHolds(w: World, id: Id, codec: Codec, env: DispatchEnv)
    requires id in w.sessions
    ensures id in Dispatch(w, id, codec, env).world.sessions
  {
    hide RequestOk, File;
  }

  /** A write that fails was turned away at once, or it gives the handle up and spoils the world. */
  lemma FailedWriteGivesUp(e: Engine, id: Id, stream: Stream, chunk: Bytes, room: bool, appended: nat)
    requires Held(e, id)
    ensures var answer := WriteObservation(e, id, stream, chunk, room, appended);
            if answer.result.Ok? then Held(answer.engine, id)
            else if chunk == [] || |chunk| > MAX_CHUNK_BYTES then answer.engine == e
            else Gone(answer.engine, id)
  {
    hide Write, DepWrite, Gone, Invalidate;
    var world := Write(e.world, id, stream, chunk, room, appended).world;
    WriteHolds(e.world, id, stream, chunk, room, appended);
    GivenUp(e, id);
    GivenUp(Engine(e.live[id := None], world), id);
    if e.live[id].Some? {
      var written := DepWrite(e.live[id].value, stream, chunk);
      if written.Ok? { GivenUp(Engine(e.live[id := Some(written.value)], world), id); }
    }
  }

  lemma FailedDispatchGivesUp(e: Engine, id: Id, codec: Codec, env: DispatchEnv)
    requires Held(e, id)
    ensures var answer := DispatchObservation(e, id, codec, env);
            if answer.result.Ok? then Held(answer.engine, id) else Gone(answer.engine, id)
  {
    hide Dispatch, DepDispatch, Gone, Invalidate;
    var world := Dispatch(e.world, id, codec, env).world;
    DispatchHolds(e.world, id, codec, env);
    GivenUp(e, id);
    GivenUp(Engine(e.live[id := None], world), id);
    if e.live[id].Some? {
      var dispatched := DepDispatch(e.live[id].value, codec);
      if dispatched.Ok? { GivenUp(Engine(e.live[id := Some(dispatched.value)], world), id); }
    }
  }

  lemma {:induction false} FailedRecordGivesUp(e: Engine, id: Id, stream: Stream, record: Bytes, room: bool,
                                               appended: nat)
    requires Held(e, id)
    ensures var answer := WriteRecord(e, id, stream, record, room, appended);
            if answer.result.Ok? then Held(answer.engine, id) else Gone(answer.engine, id)
    decreases |record|
  {
    hide WriteObservation, Held, Gone;
    if record != [] {
      var count := Min(MAX_CHUNK_BYTES, |record|);
      FailedWriteGivesUp(e, id, stream, record[..count], room, appended);
      var first := WriteObservation(e, id, stream, record[..count], room, appended);
      if first.result.Ok? {
        FailedRecordGivesUp(first.engine, id, stream, record[count..], room, appended);
      }
    }
  }

  /**
   * An opening that fails leaves no handle behind, and if it had opened its session, that session is
   * gone and the world of the operation is incomplete.
   */
  lemma FailedOpenDependency(e: Engine, id: Id, request: Record, parent: Option<int>, created: nat, codec: Codec,
                             env: Env, denv: DispatchEnv)
    requires id !in e.live && ContractFor(codec.classOf(Dependency, request)).Dependency?
    requires OpenDependency(e, id, request, parent, created, codec, env, denv).result.Err?
    ensures var e', class_ := OpenDependency(e, id, request, parent, created, codec, env, denv).engine,
                              codec.classOf(Dependency, request);
            && id !in e'.live
            && (codec.valid(Dependency, RequestRecord, request) ==>
                  OpenObservation(e, id, class_, parent, created).result.Ok? ==> Gone(e', id))
  {
    hide OpenObservation, WriteRecord, DispatchObservation, Invalidate, Position, ReadRecord, File;
    var class_, bytes := codec.classOf(Dependency, request), codec.encode(Dependency, RequestRecord, request);
    var start := OpenObservation(e, id, class_, parent, created);
    if start.result.Err? {
      assert start.engine.live == e.live by { RefusedOpen(e, id, class_, parent, created); }
    } else {
      OpenedIs(e, id, class_, parent, created);
      var d := start.engine.live[id].value.(position := Some(start.result.value));
      var bound := Bind(start.engine, id, d);
      FailedRecordGivesUp(bound, id, RequestStream, bytes, env.room, env.appended);
      var written := WriteRecord(bound, id, RequestStream, bytes, env.room, env.appended).engine;
      GivenUp(written, id);
      if Held(written, id) {
        FailedDispatchGivesUp(written, id, codec, denv);
        GivenUp(DispatchObservation(written, id, codec, denv).engine, id);
      }
    }
  }

  lemma RefusedOpen(e: Engine, id: Id, class_: ObservationClass, parent: Option<int>, created: nat)
    requires OpenObservation(e, id, class_, parent, created).result.Err?
    ensures OpenObservation(e, id, class_, parent, created).engine.live == e.live
  {
    hide Open;
  }
}
