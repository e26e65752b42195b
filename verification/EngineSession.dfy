// The engine's semantic dependency sessions above the coordinator: a second buffer and validator of
// the same bytes, kept in step with the spool by every registry operation on an observation.

module EngineSession {
  import opened Arith
  import opened Classes
  import opened MapSums
  import opened Options
  import opened Semantics
  import opened World

  /** `SemanticDependencySession`. */
  datatype Dep = Dep(
    class_: ObservationClass, action: Option<Action>, position: Option<nat>, request: Bytes, response: Bytes,
    validatedRequest: Option<Record>, validatedResponse: Option<Record>)

  /** The registry's observations of one operation, beside that operation's coordinator. */
  datatype Engine = Engine(live: map<Id, Option<Dep>>, world: World)

  datatype Answer<+T> = Answer(engine: Engine, result: Result<T>)

  function ForClass(class_: ObservationClass): Option<Dep> {
    if ContractFor(class_).Dependency? then Some(Dep(class_, None, None, [], [], None, None)) else None
  }

  // ---- one session -----------------------------------------------------------------------------------

  function DepWrite(d: Dep, stream: Stream, chunk: Bytes): Result<Dep> {
    if stream.RequestStream? && d.validatedRequest.None? then
      if |d.request| + |chunk| > MAX_SEMANTIC_RECORD_BYTES then Err(CaptureLimit)
      else Ok(d.(request := d.request + chunk))
    else if stream.ResponseStream? && d.validatedRequest.Some? then
      if |d.response| + |chunk| > MAX_SEMANTIC_RECORD_BYTES then Err(CaptureLimit)
      else Ok(d.(response := d.response + chunk, validatedResponse := None))
    else Err(InvalidTransition)
  }

  function DepDispatch(d: Dep, codec: Codec): Result<Dep> {
    if d.validatedRequest.Some? || d.response != [] then Err(InvalidTransition)
    else
      match ReadRecord(codec, Dependency, RequestRecord, d.request, |d.request|)
      case None => Err(InvalidTransition)
      case Some(r) => if codec.classOf(Dependency, r) != d.class_ then Err(InvalidTransition)
                      else Ok(d.(validatedRequest := Some(r)))
  }

  /** `validated_response`: the cached record, or the parsed and paired buffer. */
  function DepValidated(d: Dep, codec: Codec): Result<Record> {
    if d.validatedResponse.Some? then Ok(d.validatedResponse.value)
    else if d.validatedRequest.None? then Err(InvalidTransition)
    else
      match ReadRecord(codec, Dependency, ResponseRecord, d.response, |d.response|)
      case None => Err(InvalidTransition)
      case Some(r) => if codec.pairValid(Dependency, d.validatedRequest.value, r) then Ok(r) else Err(InvalidTransition)
  }

  function DepFinish(d: Dep, outcome: Outcome, codec: Codec): Result<Record> {
    match DepValidated(d, codec)
    case Err(f) => Err(f)
    case Ok(r) => if codec.outcomeOf(Dependency, r) == outcome then Ok(r) else Err(InvalidTransition)
  }

  // ---- the registry operations -------------------------------------------------------------------

  /** `invalidate_semantic_observation`: the handle goes and the coordinator abandons its session. */
  function Invalidate(e: Engine, id: Id): Engine {
    if id in e.live then Engine(Removed(e.live, id), Abandon(e.world, id).world) else e
  }

  function OpenObservation(e: Engine, id: Id, class_: ObservationClass, parent: Option<int>,
                           created: nat): Answer<nat> {
    var reply := Open(e.world, id, class_, parent, true, created);
    match reply.result
    case Err(f) => Answer(Engine(e.live, reply.world), Err(f))
    case Ok(position) => Answer(Engine(e.live[id := ForClass(class_)], reply.world), Ok(position))
  }

  function WriteObservation(e: Engine, id: Id, stream: Stream, chunk: Bytes, room: bool, appended: nat): Answer<()> {
    if chunk == [] || |chunk| > MAX_CHUNK_BYTES then Answer(e, Err(CaptureLimit))
    else if id !in e.live then Answer(e, Err(NotFound))
    else
      var dep := if e.live[id].None? then Ok(None) else
        (match DepWrite(e.live[id].value, stream, chunk) case Ok(d) => Ok(Some(d)) case Err(f) => Err(f));
      match dep
      case Err(f) => Answer(Invalidate(e, id), Err(f))
      case Ok(d) =>
        var reply := Write(e.world, id, stream, chunk, room, appended);
        var e1 := Engine(e.live[id := d], reply.world);
        match reply.result
        case Err(f) => Answer(Invalidate(e1, id), Err(f))
        case Ok(_) => Answer(e1, Ok(()))
  }

  function DispatchObservation(e: Engine, id: Id, codec: Codec, env: DispatchEnv): Answer<Action> {
    if id !in e.live then Answer(e, Err(NotFound))
    else
      var dep := if e.live[id].None? then Ok(None) else
        (match DepDispatch(e.live[id].value, codec) case Ok(d) => Ok(Some(d)) case Err(f) => Err(f));
      match dep
      case Err(f) => Answer(Invalidate(e, id), Err(f))
      case Ok(d) =>
        var reply := Dispatch(e.world, id, codec, env);
        var e1 := Engine(e.live[id := d], reply.world);
        match reply.result
        case Err(f) => Answer(Invalidate(e1, id), Err(f))
        case Ok(action) => Answer(e1, Ok(action))
  }

  /** What the coordinator returns is also written to the session's response buffer. */
  function ReadObservation(e: Engine, id: Id, readable: bool, wanted: nat): Answer<ReadResult> {
    if id !in e.live then Answer(e, Err(NotFound))
    else
      var reply := Read(e.world, id, readable, wanted);
      var e1 := Engine(e.live, reply.world);
      match reply.result
      case Err(f) => Answer(e1, Err(f))
      case Ok(r) =>
        if e.live[id].None? then Answer(e1, Ok(r))
        else
          match DepWrite(e.live[id].value, ResponseStream, r.chunk)
          case Err(f) => Answer(Invalidate(e1, id), Err(f))
          case Ok(d) => Answer(Engine(e.live[id := Some(d)], reply.world), Ok(r))
  }

  function FinishObservation(e: Engine, id: Id, outcome: Outcome, position: nat, codec: Codec, readable: bool,
                             recorded: bool): Answer<Option<Record>> {
    if id !in e.live then Answer(e, Err(NotFound))
    else
      var response := if e.live[id].None? then Ok(None) else
        (match DepFinish(e.live[id].value, outcome, codec) case Ok(r) => Ok(Some(r)) case Err(f) => Err(f));
      match response
      case Err(f) => Answer(Invalidate(e, id), Err(f))
      case Ok(r) =>
        var reply := Finish(e.world, id, outcome, position, codec, readable, recorded);
        var e1 := Engine(e.live, reply.world);
        match reply.result
        case Err(f) => Answer(Invalidate(e1, id), Err(f))
        case Ok(_) => Answer(Engine(Removed(e.live, id), reply.world), Ok(r))
  }

  function AbandonObservation(e: Engine, id: Id): Answer<()> {
    if id !in e.live then Answer(e, Err(NotFound))
    else
      var reply := Abandon(e.world, id);
      match reply.result
      case Err(f) => Answer(e, Err(f))
      case Ok(_) => Answer(Engine(Removed(e.live, id), reply.world), Ok(()))
  }

  /** `write_dependency_record`: the record in chunks of the largest size. */
  function WriteRecord(e: Engine, id: Id, stream: Stream, record: Bytes, room: bool, appended: nat): Answer<()>
    decreases |record|
  {
    if record == [] then Answer(e, Ok(()))
    else
      var count := Min(MAX_CHUNK_BYTES, |record|);
      var first := WriteObservation(e, id, stream, record[..count], room, appended);
      if first.result.Err? then first else WriteRecord(first.engine, id, stream, record[count..], room, appended)
  }

  /** What surrounds `finish_dependency`: the coordinator's room, files and recorder. */
  datatype Env = Env(room: bool, appended: nat, readable: bool, recorded: bool)

  /**
   * `finish_dependency`: in capture the caller's response record is written and cached, in replay the
   * buffer is parsed; either way the coordinator has the last word.
   */
  function FinishDependency(e: Engine, id: Id, response: Option<Record>, codec: Codec, env: Env): Answer<Outcome> {
    if id !in e.live then Answer(e, Err(NotFound))
    else if e.live[id].None? || e.live[id].value.position.None? then Answer(Invalidate(e, id), Err(InvalidTransition))
    else
      var d := e.live[id].value;
      var expects := if d.action == Some(CaptureAction) then response.Some?
                     else if d.action == Some(ReplayAction) then response.None? else false;
      if !expects then Answer(Invalidate(e, id), Err(InvalidTransition))
      else if response.None? then Conclude(e, id, d.position.value, codec, env)
      else if d.validatedRequest.None? || !codec.pairValid(Dependency, d.validatedRequest.value, response.value) then
        Answer(Invalidate(e, id), Err(InvalidTransition))
      else
        var bytes := codec.encode(Dependency, ResponseRecord, response.value);
        var written := WriteRecord(e, id, ResponseStream, bytes, env.room, env.appended);
        if written.result.Err? then Answer(Invalidate(written.engine, id), Err(written.result.fault))
        else if id !in written.engine.live || written.engine.live[id].None? then
              Answer(Invalidate(written.engine, id), Err(InvalidTransition))
        else
          var d1 := written.engine.live[id].value;
          if d1.validatedResponse.Some? then Answer(Invalidate(written.engine, id), Err(InvalidTransition))
          else Conclude(written.engine.(live := written.engine.live[id := Some(d1.(validatedResponse := response))]),
                        id, d.position.value, codec, env)
  }

  function Conclude(e: Engine, id: Id, position: nat, codec: Codec, env: Env): Answer<Outcome>
    requires id in e.live && e.live[id].Some?
  {
    match DepValidated(e.live[id].value, codec)
    case Err(f) => Answer(Invalidate(e, id), Err(f))
    case Ok(r) =>
      var outcome := codec.outcomeOf(Dependency, r);
      var finished := FinishObservation(e, id, outcome, position, codec, env.readable, env.recorded);
      match finished.result
      case Err(f) => Answer(Invalidate(finished.engine, id), Err(f))
      case Ok(None) => Answer(Invalidate(finished.engine, id), Err(InvalidTransition))
      case Ok(Some(_)) => Answer(finished.engine, Ok(outcome))
  }

  function Bind(e: Engine, id: Id, d: Dep): Engine {
    e.(live := e.live[id := Some(d)])
  }

  /**
   * `open_dependency`: opens, binds the position, writes the canonical request, dispatches and binds
   * the action; a failure after the binding of the position gives the handle up again.
   */
  function OpenDependency(e: Engine, id: Id, request: Record, parent: Option<int>, created: nat, codec: Codec,
                          env: Env, denv: DispatchEnv): Answer<Action> {
    var class_ := codec.classOf(Dependency, request);
    if !codec.valid(Dependency, RequestRecord, request) then Answer(e, Err(InvalidTransition))
    else
      var start := OpenObservation(e, id, class_, parent, created);
      if start.result.Err? then Answer(start.engine, Err(start.result.fault))
      else if start.engine.live[id].None? then Answer(start.engine, Err(InvalidTransition))
      else
        var bound := Bind(start.engine, id, start.engine.live[id].value.(position := Some(start.result.value)));
        var written := WriteRecord(bound, id, RequestStream, codec.encode(Dependency, RequestRecord, request),
                                   env.room, env.appended);
        if written.result.Err? then Answer(Invalidate(written.engine, id), Err(written.result.fault))
        else
          var dispatched := DispatchObservation(written.engine, id, codec, denv);
          if dispatched.result.Err? then Answer(Invalidate(dispatched.engine, id), Err(dispatched.result.fault))
          else if id !in dispatched.engine.live || dispatched.engine.live[id].None?
               || dispatched.engine.live[id].value.action.Some? then
            Answer(Invalidate(dispatched.engine, id), Err(InvalidTransition))
          else
            var d := dispatched.engine.live[id].value.(action := Some(dispatched.result.value));
            Answer(Bind(dispatched.engine, id, d), Ok(dispatched.result.value))
  }

  // ---- the simulation -------------------------------------------------------------------------------

  /**
   * A live session and the coordinator hold the same bytes: the whole request, and of the response
   * everything in capture or what has been read so far in replay.
   */
  predicate SameBytes(d: Dep, s: Session, request: Bytes, response: Bytes, capture: bool, codec: Codec) {
    && s.class_ == d.class_ && s.contract == Some(Dependency)
    && d.request == request && s.requestBytes == |request|
    && d.validatedResponse.None? && ValidatedOk(d, codec)
    && match s.state
       case Requesting => d.validatedRequest.None? && d.response == []
                          && (capture ==> response == [] && s.responseBytes == 0)
       case Capturing => capture && d.validatedRequest.Some? && d.response == response && s.responseBytes == |response|
       case Replaying(offset) =>
         !capture && d.validatedRequest.Some? && offset <= |response| && d.response == response[..offset]
         && s.responseBytes == |response|
       case Overflowed => false
  }

  /** A validated request is the canonical record of the request buffer. */
  predicate ValidatedOk(d: Dep, codec: Codec) {
    d.validatedRequest.Some? ==>
      && ReadRecord(codec, Dependency, RequestRecord, d.request, |d.request|) == d.validatedRequest
      && codec.classOf(Dependency, d.validatedRequest.value) == d.class_
  }

  predicate InStep(e: Engine, id: Id, codec: Codec) {
    && (id in e.live ==> id in e.world.sessions)
    && (id in e.live && id in e.world.sessions && e.live[id].Some? ==>
          SameBytes(e.live[id].value, e.world.sessions[id], File(e.world, RequestFile(id)),
                    File(e.world, ResponseFile(id)), e.world.capture, codec))
  }

  ghost predicate AllInStep(e: Engine, codec: Codec) {
    forall id :: InStep(e, id, codec)
  }

  /** What a coordinator call on one session leaves alone. */
  ghost predicate Elsewhere(w: World, w': World, id: Id) {
    && w'.capture == w.capture
    && forall x :: x != id ==> SameSession(w, w', x)
  }

  predicate SameSession(w: World, w': World, x: Id) {
    && (x in w.sessions <==> x in w'.sessions) && (x in w.sessions ==> w'.sessions[x] == w.sessions[x])
    && File(w', RequestFile(x)) == File(w, RequestFile(x)) && File(w', ResponseFile(x)) == File(w, ResponseFile(x))
  }

  /** The other sessions stay in step. */
  lemma OthersInStep(e: Engine, e': Engine, id: Id, codec: Codec)
    requires AllInStep(e, codec) && Elsewhere(e.world, e'.world, id)
    requires forall x :: x != id ==> (x in e.live <==> x in e'.live) && (x in e.live ==> e'.live[x] == e.live[x])
    requires InStep(e', id, codec)
    ensures AllInStep(e', codec)
  {
    hide SameBytes;
    forall x ensures InStep(e', x, codec) {
      if x != id {
        assert InStep(e, x, codec) && SameSession(e.world, e'.world, x);
      }
    }
  }

  lemma SetElsewhere(w: World, id: Id, s: Session)
    ensures Elsewhere(w, SetSession(w, id, s), id) && Elsewhere(w, MarkIncomplete(SetSession(w, id, s)), id)
    ensures Elsewhere(w, MarkIncomplete(w), id)
  {
  }

  lemma UpdateElsewhere(w: World, id: Id, s: Session, path: Path, content: Bytes, reserved: nat)
    requires path == RequestFile(id) || path == ResponseFile(id)
    ensures Elsewhere(w, Update(w, id, s, path, content, reserved), id)
    ensures Elsewhere(w, MarkIncomplete(Update(w, id, s, path, content, reserved)), id)
  {
  }

  lemma OverflowElsewhere(w: World, id: Id)
    ensures Elsewhere(w, Overflow(w, id), id)
  {
  }

  lemma Trans(a: World, b: World, c: World, id: Id)
    requires Elsewhere(a, b, id) && Elsewhere(b, c, id)
    ensures Elsewhere(a, c, id)
  {
    forall x | x != id ensures SameSession(a, c, x) {
      assert SameSession(a, b, x) && SameSession(b, c, x);
    }
  }

  lemma WriteElsewhere(w: World, id: Id, stream: Stream, chunk: Bytes, room: bool, appended: nat)
    ensures Elsewhere(w, Write(w, id, stream, chunk, room, appended).world, id)
  {
    hide Overflow, Update, MarkIncomplete, File, Elsewhere;
    Unchanged(w, id);
    OverflowElsewhere(w, id);
    if id in w.sessions {
      var content := File(w, StreamFile(id, stream)) + (if appended >= |chunk| then chunk else chunk[..appended]);
      UpdateElsewhere(w, id, Added(w.sessions[id], stream, |chunk|), StreamFile(id, stream), content, |chunk|);
    }
  }

  lemma Unchanged(w: World, id: Id)
    ensures Elsewhere(w, w, id)
  {
  }

  lemma DispatchElsewhere(w: World, id: Id, codec: Codec, env: DispatchEnv)
    ensures Elsewhere(w, Dispatch(w, id, codec, env).world, id)
  {
    hide RequestOk, Update, SetSession, MarkIncomplete, File, Elsewhere;
    Unchanged(w, id);
    if id in w.sessions {
      var s := w.sessions[id];
      SetElsewhere(w, id, s.(state := Overflowed));
      SetElsewhere(w, id, s.(state := Capturing));
      if env.recorded.Some? {
        var s1 := s.(responseBytes := |env.recorded.value|);
        SetElsewhere(w, id, s1);
        UpdateElsewhere(w, id, s1, ResponseFile(id), env.partly, |env.recorded.value|);
        UpdateElsewhere(w, id, s1.(state := Replaying(0)), ResponseFile(id), env.recorded.value, |env.recorded.value|);
      }
    }
  }

  lemma ReadElsewhere(w: World, id: Id, readable: bool, wanted: nat)
    ensures Elsewhere(w, Read(w, id, readable, wanted).world, id)
  {
    hide ReadCount;
  }

  lemma SettledElsewhere(w: World, id: Id, fate: Fate)
    requires id in w.sessions
    ensures Elsewhere(w, Settled(w, id, fate), id) && Elsewhere(w, MarkIncomplete(Settled(w, id, fate)), id)
    ensures id !in Settled(w, id, fate).sessions && id !in MarkIncomplete(Settled(w, id, fate)).sessions
  {
    hide Removed;
    RemovedEverywhere(w.sessions, id);
  }

  lemma AbandonElsewhere(w: World, id: Id)
    ensures Elsewhere(w, Abandon(w, id).world, id)
    ensures id !in Abandon(w, id).world.sessions
  {
    hide Settled, MarkIncomplete, Elsewhere;
    Unchanged(w, id);
    if id in w.sessions { SettledElsewhere(w, id, Lost); }
  }

  lemma StagedElsewhere(w: World, s: Session, x: Exchange, id: Id)
    ensures Elsewhere(w, Staged(w, s, x), id) && Staged(w, s, x).sessions == w.sessions
  {
    hide NewArtifacts, NewInteractions;
  }

  lemma KeptElsewhere(w: World, id: Id, x: Exchange)
    requires id in w.sessions && w.sessions[id].class_ in w.registrations
    ensures Elsewhere(w, Kept(w, id, x), id)
  {
    hide NewArtifacts, NewInteractions, Evidence, Removed;
    RemovedEverywhere(w.sessions, id);
  }

  lemma CommitElsewhere(w: World, id: Id, outcome: Outcome, readable: bool, recorded: bool)
    requires id in w.sessions
    ensures Elsewhere(w, Commit(w, id, outcome, readable, recorded).world, id)
  {
    hide CommitFault, Staged, Kept, Settled, MarkIncomplete, File, Elsewhere;
    var s := w.sessions[id];
    var x := ExchangeOf(w, id, outcome);
    SettledElsewhere(w, id, Lost);
    var lost := MarkIncomplete(Settled(w, id, Lost));
    StagedElsewhere(lost, s, x, id);
    Trans(w, lost, Staged(lost, s, x), id);
    if s.class_ in w.registrations { KeptElsewhere(w, id, x); }
  }

  /** Whatever its outcome, a finish takes the session away and touches no other. */
  lemma FinishElsewhere(w: World, id: Id, outcome: Outcome, position: nat, codec: Codec, readable: bool, recorded: bool)
    ensures Elsewhere(w, Finish(w, id, outcome, position, codec, readable, recorded).world, id)
  {
    hide PairOk, Settled, MarkIncomplete, Commit, File, Elsewhere;
    Unchanged(w, id);
    if id in w.sessions {
      SettledElsewhere(w, id, Lost);
      SettledElsewhere(w, id, Replayed);
      CommitElsewhere(w, id, outcome, readable, recorded);
    }
  }

  lemma TouchElsewhere(w: World, id: Id, created: nat)
    ensures Elsewhere(w, Touch(w, id, created), id) && Touch(w, id, created).sessions == w.sessions
    ensures created >= 2 ==>
              File(Touch(w, id, created), RequestFile(id)) == [] == File(Touch(w, id, created), ResponseFile(id))
  {
  }

  lemma OpenedElsewhere(w: World, id: Id, s: Session)
    ensures Elsewhere(w, Opened(w, id, s), id) && Opened(w, id, s).sessions == w.sessions[id := s]
    ensures Opened(w, id, s).spool == w.spool
  {
  }

  lemma PositionsElsewhere(w: World, positions: map<ObservationClass, nat>, id: Id)
    ensures Elsewhere(w, w.(positions := positions), id)
  {
  }

  lemma OpenElsewhere(w: World, id: Id, class_: ObservationClass, parent: Option<int>, created: nat)
    ensures Elsewhere(w, Open(w, id, class_, parent, true, created).world, id)
    ensures var reply := Open(w, id, class_, parent, true, created);
            if reply.result.Ok? then
              && reply.world.sessions == w.sessions[id := Session(parent, class_, 0, 0, Position(w, class_),
                                                                  Some(ContractFor(class_)), Requesting)]
              && File(reply.world, RequestFile(id)) == [] == File(reply.world, ResponseFile(id))
            else reply.world.sessions == w.sessions
  {
    hide ContractFor, Touch, Opened, MarkIncomplete, Elsewhere;
    var w1 := Touch(w, id, created);
    MarkedElsewhere(w, id);
    TouchElsewhere(w, id, created);
    var s := Session(parent, class_, 0, 0, Position(w, class_), Some(ContractFor(class_)), Requesting);
    OpenedElsewhere(w1, id, s);
    Trans(w, w1, Opened(w1, id, s), id);
    var positions := w.positions[class_ := Position(w, class_)];
    PositionsElsewhere(w1, positions, id);
    Trans(w, w1, w1.(positions := positions), id);
  }

  lemma MarkedElsewhere(w: World, id: Id)
    ensures Elsewhere(w, MarkIncomplete(w), id) && MarkIncomplete(w).sessions == w.sessions
  {
  }

  /** Giving up a session leaves the others in step. */
  lemma InvalidateInStep(e: Engine, id: Id, codec: Codec)
    requires forall x :: x != id ==> InStep(e, x, codec)
    requires id !in e.live ==> InStep(e, id, codec)
    ensures AllInStep(Invalidate(e, id), codec)
  {
    hide SameBytes, Removed;
    if id in e.live {
      RemovedEverywhere(e.live, id);
      AbandonElsewhere(e.world, id);
      var e' := Invalidate(e, id);
      forall x ensures InStep(e', x, codec) {
        assert x != id ==> InStep(e, x, codec) && SameSession(e.world, e'.world, x);
      }
    }
  }

  // ---- each operation keeps the sessions in step --------------------------------------------------

  lemma OpenInStep(e: Engine, id: Id, class_: ObservationClass, parent: Option<int>, created: nat, codec: Codec)
    requires AllInStep(e, codec) && id !in e.live
    ensures AllInStep(OpenObservation(e, id, class_, parent, created).engine, codec)
  {
    hide Open, ReadRecord, File, AllInStep;
    var e' := OpenObservation(e, id, class_, parent, created).engine;
    OpenElsewhere(e.world, id, class_, parent, created);
    assert InStep(e', id, codec);
    hide InStep;
    OthersInStep(e, e', id, codec);
  }

  /** What an accepted write does to its own session. */
  lemma WriteAccepted(w: World, id: Id, stream: Stream, chunk: Bytes, room: bool, appended: nat)
    requires Write(w, id, stream, chunk, room, appended).result.Ok?
    ensures var w' := Write(w, id, stream, chunk, room, appended).world;
            && id in w.sessions && id in w'.sessions && Accepts(w.sessions[id], stream)
            && w'.sessions[id] == Added(w.sessions[id], stream, |chunk|) && w'.capture == w.capture
            && File(w', StreamFile(id, stream)) == File(w, StreamFile(id, stream)) + chunk
            && (stream.RequestStream? ==> File(w', ResponseFile(id)) == File(w, ResponseFile(id)))
            && (stream.ResponseStream? ==> File(w', RequestFile(id)) == File(w, RequestFile(id)))
  {
    hide Overflow;
  }

  lemma WriteInStep(e: Engine, id: Id, stream: Stream, chunk: Bytes, room: bool, appended: nat, codec: Codec)
    requires AllInStep(e, codec)
    ensures AllInStep(WriteObservation(e, id, stream, chunk, room, appended).engine, codec)
  {
    hide Write, ReadRecord, File, AllInStep, Elsewhere;
    var answer := WriteObservation(e, id, stream, chunk, room, appended);
    if id in e.live && chunk != [] && |chunk| <= MAX_CHUNK_BYTES {
      WriteElsewhere(e.world, id, stream, chunk, room, appended);
      Instance(e, id, codec);
      if answer.result.Ok? {
        WriteAccepted(e.world, id, stream, chunk, room, appended);
        assert InStep(answer.engine, id, codec);
        hide InStep;
        OthersInStep(e, answer.engine, id, codec);
      } else {
        hide InStep;
        FailedWrite(e, id, stream, chunk, room, appended, codec);
      }
    }
  }

  lemma Instance(e: Engine, id: Id, codec: Codec)
    requires AllInStep(e, codec)
    ensures InStep(e, id, codec)
  {
  }

  /** After any change of session `id` alone, giving it up leaves everything in step. */
  lemma GiveUp(e: Engine, e1: Engine, id: Id, codec: Codec)
    requires AllInStep(e, codec) && Elsewhere(e.world, e1.world, id) && id in e1.live
    requires forall x :: x != id ==> (x in e.live <==> x in e1.live) && (x in e.live ==> e1.live[x] == e.live[x])
    ensures AllInStep(Invalidate(e1, id), codec)
  {
    hide SameBytes;
    forall x | x != id ensures InStep(e1, x, codec) {
      assert InStep(e, x, codec) && SameSession(e.world, e1.world, x);
    }
    hide InStep, Invalidate, Elsewhere, AllInStep;
    InvalidateInStep(e1, id, codec);
  }

  lemma FailedWrite(e: Engine, id: Id, stream: Stream, chunk: Bytes, room: bool, appended: nat, codec: Codec)
    requires AllInStep(e, codec) && id in e.live && chunk != [] && |chunk| <= MAX_CHUNK_BYTES
    requires WriteObservation(e, id, stream, chunk, room, appended).result.Err?
    ensures AllInStep(WriteObservation(e, id, stream, chunk, room, appended).engine, codec)
  {
    hide Write, File, AllInStep, Elsewhere, Invalidate, InStep;
    WriteElsewhere(e.world, id, stream, chunk, room, appended);
    Unchanged(e.world, id);
    GiveUp(e, e, id, codec);
    var dep := if e.live[id].None? then Ok(None) else
      (match DepWrite(e.live[id].value, stream, chunk) case Ok(d) => Ok(Some(d)) case Err(f) => Err(f));
    if dep.Ok? {
      GiveUp(e, Engine(e.live[id := dep.value], Write(e.world, id, stream, chunk, room, appended).world), id, codec);
    }
  }

  lemma DispatchAccepted(w: World, id: Id, codec: Codec, env: DispatchEnv)
    requires Dispatch(w, id, codec, env).result.Ok?
    ensures var w' := Dispatch(w, id, codec, env).world; var action := Dispatch(w, id, codec, env).result.value;
            && id in w.sessions && id in w'.sessions && w.sessions[id].state.Requesting? && w'.capture == w.capture
            && RequestOk(codec, w.sessions[id].contract, w.sessions[id].class_, File(w, RequestFile(id)),
                         w.sessions[id].requestBytes)
            && File(w', RequestFile(id)) == File(w, RequestFile(id))
            && (if w.capture then
                  && action == CaptureAction && w'.sessions[id] == w.sessions[id].(state := Capturing)
                  && File(w', ResponseFile(id)) == File(w, ResponseFile(id))
                else
                  && action == ReplayAction && env.recorded.Some? && File(w', ResponseFile(id)) == env.recorded.value
                  && w'.sessions[id] == w.sessions[id].(state := Replaying(0), responseBytes := |env.recorded.value|))
  {
    hide RequestOk;
  }

  lemma DispatchInStep(e: Engine, id: Id, codec: Codec, env: DispatchEnv)
    requires AllInStep(e, codec)
    ensures AllInStep(DispatchObservation(e, id, codec, env).engine, codec)
  {
    hide Dispatch, ReadRecord, File, AllInStep, Elsewhere, RequestOk, Invalidate;
    if id in e.live {
      var answer := DispatchObservation(e, id, codec, env);
      DispatchElsewhere(e.world, id, codec, env);
      Instance(e, id, codec);
      if answer.result.Ok? {
        DispatchAccepted(e.world, id, codec, env);
        assert InStep(answer.engine, id, codec);
        hide InStep;
        OthersInStep(e, answer.engine, id, codec);
      } else {
        hide InStep;
        Unchanged(e.world, id);
        GiveUp(e, e, id, codec);
        var dep := if e.live[id].None? then Ok(None) else
          (match DepDispatch(e.live[id].value, codec) case Ok(d) => Ok(Some(d)) case Err(f) => Err(f));
        if dep.Ok? {
          GiveUp(e, Engine(e.live[id := dep.value], Dispatch(e.world, id, codec, env).world), id, codec);
        }
      }
    }
  }

  lemma ReadAccepted(w: World, id: Id, readable: bool, wanted: nat)
    requires Read(w, id, readable, wanted).result.Ok?
    requires id in w.sessions && w.sessions[id].state.Replaying? ==>
               w.sessions[id].state.offset <= |File(w, ResponseFile(id))|
    ensures var w' := Read(w, id, readable, wanted).world; var r := Read(w, id, readable, wanted).result.value;
            && id in w.sessions && id in w'.sessions && w.sessions[id].state.Replaying? && w'.capture == w.capture
            && w'.spool == w.spool
            && var offset := w.sessions[id].state.offset;
            && offset + |r.chunk| <= |File(w, ResponseFile(id))|
            && File(w, ResponseFile(id))[..offset] + r.chunk == File(w, ResponseFile(id))[..offset + |r.chunk|]
            && w'.sessions[id] == w.sessions[id].(state := Replaying(offset + |r.chunk|))
            && (r.end <==> offset + |r.chunk| == w.sessions[id].responseBytes)
  {
    hide File;
  }

  lemma ReadInStep(e: Engine, id: Id, readable: bool, wanted: nat, codec: Codec)
    requires AllInStep(e, codec)
    ensures AllInStep(ReadObservation(e, id, readable, wanted).engine, codec)
  {
    hide ReadRecord, AllInStep, Elsewhere, Invalidate;
    if id in e.live {
      var answer := ReadObservation(e, id, readable, wanted);
      var reply := Read(e.world, id, readable, wanted);
      ReadElsewhere(e.world, id, readable, wanted);
      Instance(e, id, codec);
      if reply.result.Err? {
        ReadRefused(e.world, id, readable, wanted);
        assert answer.engine == e;
      } else if e.live[id].None? {
        hide Read, File;
        ReadOpen(e.world, id, readable, wanted);
        assert InStep(answer.engine, id, codec);
        hide InStep;
        OthersInStep(e, answer.engine, id, codec);
      } else {
        hide Read, File;
        ReadOpen(e.world, id, readable, wanted);
        ReadAccepted(e.world, id, readable, wanted);
        if answer.result.Ok? {
          FilesOfSpool(e.world, reply.world, id);
          assert InStep(answer.engine, id, codec);
          hide InStep;
          OthersInStep(e, answer.engine, id, codec);
        } else {
          hide InStep;
          GiveUp(e, Engine(e.live, reply.world), id, codec);
        }
      }
    }
  }

  lemma FilesOfSpool(w: World, w': World, id: Id)
    requires w'.spool == w.spool
    ensures File(w', RequestFile(id)) == File(w, RequestFile(id))
            && File(w', ResponseFile(id)) == File(w, ResponseFile(id))
  {
  }

  lemma ReadRefused(w: World, id: Id, readable: bool, wanted: nat)
    requires Read(w, id, readable, wanted).result.Err?
    ensures Read(w, id, readable, wanted).world == w
  {
  }

  lemma ReadOpen(w: World, id: Id, readable: bool, wanted: nat)
    requires Read(w, id, readable, wanted).result.Ok?
    ensures id in w.sessions && w.sessions[id].state.Replaying? && id in Read(w, id, readable, wanted).world.sessions
  {
  }

  /** A finish always takes the handle away, in success and in failure. */
  lemma FinishInStep(e: Engine, id: Id, outcome: Outcome, position: nat, codec: Codec, readable: bool, recorded: bool)
    requires forall x :: x != id ==> InStep(e, x, codec)
    requires id !in e.live ==> InStep(e, id, codec)
    ensures AllInStep(FinishObservation(e, id, outcome, position, codec, readable, recorded).engine, codec)
    ensures id !in FinishObservation(e, id, outcome, position, codec, readable, recorded).engine.live
  {
    hide Finish, DepFinish, SameBytes, Removed, Abandon;
    if id in e.live {
      var reply := Finish(e.world, id, outcome, position, codec, readable, recorded);
      FinishElsewhere(e.world, id, outcome, position, codec, readable, recorded);
      RemovedEverywhere(e.live, id);
      InvalidateInStep(e, id, codec);
      var e1 := Engine(e.live, reply.world);
      forall x | x != id ensures InStep(e1, x, codec) {
        assert InStep(e, x, codec) && SameSession(e.world, reply.world, x);
      }
      InvalidateInStep(e1, id, codec);
      var e2 := Engine(Removed(e.live, id), reply.world);
      forall x ensures InStep(e2, x, codec) {
        assert x != id ==> InStep(e1, x, codec);
      }
    } else {
      forall x ensures InStep(e, x, codec) {}
    }
  }

  lemma AbandonInStep(e: Engine, id: Id, codec: Codec)
    requires AllInStep(e, codec)
    ensures AllInStep(AbandonObservation(e, id).engine, codec)
  {
    hide SameBytes, Removed;
    if id in e.live {
      assert InStep(e, id, codec);
      RemovedEverywhere(e.live, id);
      AbandonElsewhere(e.world, id);
      var e' := Engine(Removed(e.live, id), Abandon(e.world, id).world);
      hide Abandon;
      forall x ensures InStep(e', x, codec) {
        assert x != id ==> InStep(e, x, codec) && SameSession(e.world, e'.world, x);
      }
    }
  }

  lemma {:induction false} RecordInStep(e: Engine, id: Id, stream: Stream, record: Bytes, room: bool, appended: nat,
                                        codec: Codec)
    requires AllInStep(e, codec)
    ensures AllInStep(WriteRecord(e, id, stream, record, room, appended).engine, codec)
    decreases |record|
  {
    hide AllInStep, WriteObservation;
    if record != [] {
      var count := Min(MAX_CHUNK_BYTES, |record|);
      WriteInStep(e, id, stream, record[..count], room, appended, codec);
      RecordInStep(WriteObservation(e, id, stream, record[..count], room, appended).engine, id, stream,
                   record[count..], room, appended, codec);
    }
  }

  lemma ConcludeInStep(e: Engine, id: Id, position: nat, codec: Codec, env: Env)
    requires id in e.live && e.live[id].Some? && forall x :: x != id ==> InStep(e, x, codec)
    ensures AllInStep(Conclude(e, id, position, codec, env).engine, codec)
  {
    hide InStep, FinishObservation, DepValidated, Invalidate, AllInStep;
    InvalidateInStep(e, id, codec);
    if DepValidated(e.live[id].value, codec).Ok? {
      var outcome := codec.outcomeOf(Dependency, DepValidated(e.live[id].value, codec).value);
      FinishInStep(e, id, outcome, position, codec, env.readable, env.recorded);
      var finished := FinishObservation(e, id, outcome, position, codec, env.readable, env.recorded).engine;
      Spread(finished, id, codec);
      InvalidateInStep(finished, id, codec);
    }
  }

  lemma Spread(e: Engine, id: Id, codec: Codec)
    requires AllInStep(e, codec)
    ensures forall x :: InStep(e, x, codec)
  {
  }

  lemma FinishDependencyInStep(e: Engine, id: Id, response: Option<Record>, codec: Codec, env: Env)
    requires AllInStep(e, codec)
    ensures AllInStep(FinishDependency(e, id, response, codec, env).engine, codec)
  {
    hide InStep, AllInStep, Conclude, WriteRecord, Invalidate;
    if id in e.live {
      Spread(e, id, codec);
      InvalidateInStep(e, id, codec);
      if e.live[id].Some? && e.live[id].value.position.Some? {
        ConcludeInStep(e, id, e.live[id].value.position.value, codec, env);
        if response.Some? {
          var written := WriteRecord(e, id, ResponseStream, codec.encode(Dependency, ResponseRecord, response.value),
                                     env.room, env.appended).engine;
          RecordInStep(e, id, ResponseStream, codec.encode(Dependency, ResponseRecord, response.value), env.room,
                       env.appended, codec);
          Spread(written, id, codec);
          InvalidateInStep(written, id, codec);
          if id in written.live && written.live[id].Some? {
            var d := written.live[id].value.(validatedResponse := response);
            var cached := written.(live := written.live[id := Some(d)]);
            CachedElsewhere(written, cached, id, codec);
            ConcludeInStep(cached, id, e.live[id].value.position.value, codec, env);
          }
        }
      }
    }
  }

  lemma CachedElsewhere(e: Engine, cached: Engine, id: Id, codec: Codec)
    requires AllInStep(e, codec) && id in e.live && id in cached.live && cached.world == e.world
             && cached.live == e.live[id := cached.live[id]]
    ensures forall x :: x != id ==> InStep(cached, x, codec)
  {
    hide SameBytes;
    forall x | x != id ensures InStep(cached, x, codec) {
      assert InStep(e, x, codec);
    }
  }

  // ---- what a successful finish means ------------------------------------------------------------

  lemma FinishAccepted(w: World, id: Id, outcome: Outcome, position: nat, codec: Codec, readable: bool, recorded: bool)
    requires Finish(w, id, outcome, position, codec, readable, recorded).result.Ok?
    ensures id in w.sessions && ResponseComplete(w.sessions[id]) && position == w.sessions[id].position
    ensures PairOk(codec, w.sessions[id].contract, File(w, RequestFile(id)), w.sessions[id].requestBytes,
                   File(w, ResponseFile(id)), w.sessions[id].responseBytes, outcome)
  {
    hide PairOk, Commit, Settled, File;
  }

  /** Whoever is in step and has consumed the response: engine and coordinator agree on the pair. */
  lemma ValidatorsAgree(e: Engine, id: Id, outcome: Outcome, codec: Codec)
    requires AllInStep(e, codec) && id in e.live && e.live[id].Some?
    requires id in e.world.sessions && ResponseComplete(e.world.sessions[id])
    ensures var d, s, w := e.live[id].value, e.world.sessions[id], e.world;
            && d.request == File(w, RequestFile(id)) && d.response == File(w, ResponseFile(id))
            && var valid := PairOk(codec, s.contract, File(w, RequestFile(id)), s.requestBytes,
                                   File(w, ResponseFile(id)), s.responseBytes, outcome);
            (DepFinish(d, outcome, codec).Ok? <==> valid)
  {
    assert InStep(e, id, codec);
    hide ReadRecord, File;
    var d, s := e.live[id].value, e.world.sessions[id];
    var response := File(e.world, ResponseFile(id));
    assert response[..|response|] == response;
  }

  /**
   * A finish succeeds only on a fully consumed, canonical and valid pair: the engine's buffers are the
   * spooled bytes, and the record it returns is the one those bytes encode, with the reported outcome.
   */
  lemma FinishMeansValidPair(e: Engine, id: Id, outcome: Outcome, position: nat, codec: Codec, readable: bool,
                             recorded: bool)
    requires AllInStep(e, codec) && id in e.live && e.live[id].Some?
    requires FinishObservation(e, id, outcome, position, codec, readable, recorded).result.Ok?
    ensures id in e.world.sessions
    ensures var d, s, w := e.live[id].value, e.world.sessions[id], e.world;
            var result := FinishObservation(e, id, outcome, position, codec, readable, recorded).result.value;
            && ResponseComplete(s) && position == s.position
            && d.request == File(w, RequestFile(id)) && d.response == File(w, ResponseFile(id))
            && PairOk(codec, Some(Dependency), d.request, |d.request|, d.response, |d.response|, outcome)
            && result == ReadRecord(codec, Dependency, ResponseRecord, d.response, |d.response|)
  {
    hide Finish, ReadRecord, File, Invalidate;
    FinishAccepted(e.world, id, outcome, position, codec, readable, recorded);
    ValidatorsAgree(e, id, outcome, codec);
    assert InStep(e, id, codec);
  }

  /** What a completely written record adds to both sides. */
  lemma {:induction false} RecordWritten(e: Engine, id: Id, record: Bytes, room: bool, appended: nat, codec: Codec)
    requires AllInStep(e, codec) && id in e.live && e.live[id].Some?
    requires WriteRecord(e, id, ResponseStream, record, room, appended).result.Ok?
    ensures var e' := WriteRecord(e, id, ResponseStream, record, room, appended).engine;
            && AllInStep(e', codec)
            && id in e'.live && e'.live[id].Some?
               && e'.live[id].value == e.live[id].value.(response := e.live[id].value.response + record)
    decreases |record|
  {
    hide AllInStep, Write, Elsewhere, ReadRecord, File;
    Instance(e, id, codec);
    if record == [] {
      assert e.live[id].value.response + record == e.live[id].value.response;
    } else {
      var count := Min(MAX_CHUNK_BYTES, |record|);
      var first := WriteObservation(e, id, ResponseStream, record[..count], room, appended);
      WriteInStep(e, id, ResponseStream, record[..count], room, appended, codec);
      WriteAccepted(e.world, id, ResponseStream, record[..count], room, appended);
      hide InStep, SameBytes;
      assert (e.live[id].value.response + record[..count]) + record[count..] == e.live[id].value.response + record;
      RecordWritten(first.engine, id, record[count..], room, appended, codec);
    }
  }

  /** No canonical response record is a proper suffix of another. */
  ghost predicate SuffixFree(codec: Codec) {
    forall prefix: Bytes, a: Record, b: Record ::
      codec.encode(Dependency, ResponseRecord, b) == prefix + codec.encode(Dependency, ResponseRecord, a) ==>
            prefix == []
  }

  /** A completely written response record is appended to the coordinator's response file; the session is capturing. */
  lemma {:induction false} RecordSpooled(e: Engine, id: Id, record: Bytes, room: bool, appended: nat)
    requires record != [] && WriteRecord(e, id, ResponseStream, record, room, appended).result.Ok?
    ensures var w, w' := e.world, WriteRecord(e, id, ResponseStream, record, room, appended).engine.world;
            && id in w.sessions && w.sessions[id].state.Capturing?
            && File(w', ResponseFile(id)) == File(w, ResponseFile(id)) + record
            && File(w', RequestFile(id)) == File(w, RequestFile(id))
    decreases |record|
  {
    hide Write, File, DepWrite, Invalidate;
    var count := Min(MAX_CHUNK_BYTES, |record|);
    var first := WriteObservation(e, id, ResponseStream, record[..count], room, appended);
    WriteAccepted(e.world, id, ResponseStream, record[..count], room, appended);
    assert record[..count] + record[count..] == record;
    if record[count..] == [] {
      assert record[..count] == record;
    } else {
      RecordSpooled(first.engine, id, record[count..], room, appended);
    }
  }

  /**
   * `finish_dependency` in capture. Response bytes written behind its back make the cached record
   * differ from the buffer; the coordinator revalidates the spool, so success still means a valid pair
   * in the spooled files with the reported outcome, and the cached record is the spooled one.
   */
  lemma FinishDependencyMeansValidPair(e: Engine, id: Id, response: Record, codec: Codec, env: Env)
    requires AllInStep(e, codec) && RoundTrips(codec) && codec.encode(Dependency, ResponseRecord, response) != []
    requires FinishDependency(e, id, Some(response), codec, env).result.Ok?
    ensures id in e.live && e.live[id].Some? && id in e.world.sessions && e.world.sessions[id].state.Capturing?
    ensures var bytes := codec.encode(Dependency, ResponseRecord, response);
            var w, w' := e.world, WriteRecord(e, id, ResponseStream, bytes, env.room, env.appended).engine.world;
            var request, spooled := File(w', RequestFile(id)), File(w', ResponseFile(id));
            var outcome := FinishDependency(e, id, Some(response), codec, env).result.value;
            && request == File(w, RequestFile(id)) == e.live[id].value.request
            && spooled == File(w, ResponseFile(id)) + bytes && File(w, ResponseFile(id)) == e.live[id].value.response
            && PairOk(codec, Some(Dependency), request, |request|, spooled, |spooled|, outcome)
            && codec.outcomeOf(Dependency, response) == outcome
            && (SuffixFree(codec) ==>
                  e.live[id].value.response == []
                  && ReadRecord(codec, Dependency, ResponseRecord, spooled, |spooled|) == Some(response))
  {
    var d := e.live[id].value;
    var bytes := codec.encode(Dependency, ResponseRecord, response);
    var written := WriteRecord(e, id, ResponseStream, bytes, env.room, env.appended).engine;
    CaptureFinished(e, id, response, codec, env);
    hide AllInStep, WriteRecord, Finish, ReadRecord, File, Invalidate, FinishDependency;
    RecordSpooled(e, id, bytes, env.room, env.appended);
    Instance(e, id, codec);
    SuffixDecides(codec, d.response, response);
  }

  lemma CaptureFinished(e: Engine, id: Id, response: Record, codec: Codec, env: Env)
    requires AllInStep(e, codec) && codec.encode(Dependency, ResponseRecord, response) != []
    requires FinishDependency(e, id, Some(response), codec, env).result.Ok?
    ensures id in e.live && e.live[id].Some?
    ensures var bytes := codec.encode(Dependency, ResponseRecord, response);
            WriteRecord(e, id, ResponseStream, bytes, env.room, env.appended).result.Ok?
    ensures var d := e.live[id].value;
            var spooled := d.response + codec.encode(Dependency, ResponseRecord, response);
            var outcome := FinishDependency(e, id, Some(response), codec, env).result.value;
            && PairOk(codec, Some(Dependency), d.request, |d.request|, spooled, |spooled|, outcome)
            && codec.outcomeOf(Dependency, response) == outcome
  {
    hide AllInStep, WriteRecord, Finish, ReadRecord, File, Invalidate;
    var d := e.live[id].value;
    var bytes := codec.encode(Dependency, ResponseRecord, response);
    var written := WriteRecord(e, id, ResponseStream, bytes, env.room, env.appended).engine;
    RecordWritten(e, id, bytes, env.room, env.appended, codec);
    Instance(written, id, codec);
    var outcome := codec.outcomeOf(Dependency, response);
    FinishAccepted(written.world, id, outcome, d.position.value, codec, env.readable, env.recorded);
    var spooled := d.response + bytes;
    var file := File(written.world, ResponseFile(id));
    assert file[..|file|] == file;
    assert written.live[id].value.response == spooled == file;
  }

  /**
   * `finish_dependency` in replay. Success means that the recorded response was read to its end and that
   * the engine's buffers are the coordinator's files, a valid pair with the returned outcome.
   */
  lemma ReplayFinishMeansValidPair(e: Engine, id: Id, codec: Codec, env: Env)
    requires AllInStep(e, codec) && FinishDependency(e, id, None, codec, env).result.Ok?
    ensures id in e.live && e.live[id].Some? && id in e.world.sessions && ResponseComplete(e.world.sessions[id])
    ensures var d, w := e.live[id].value, e.world;
            var request, response := File(w, RequestFile(id)), File(w, ResponseFile(id));
            var outcome := FinishDependency(e, id, None, codec, env).result.value;
            && d.request == request && d.response == response
            && PairOk(codec, Some(Dependency), request, |request|, response, |response|, outcome)
            && ReadRecord(codec, Dependency, ResponseRecord, response, |response|).Some?
  {
    hide AllInStep, FinishObservation, ReadRecord, File, Invalidate, PairOk;
    var d := e.live[id].value;
    var outcome := codec.outcomeOf(Dependency, DepValidated(d, codec).value);
    FinishMeansValidPair(e, id, outcome, d.position.value, codec, env.readable, env.recorded);
  }

  /** The session is a dependency whose recorded response was read to its end, under the position it was opened at. */
  predicate ReadToTheEnd(e: Engine, id: Id) {
    && id in e.live && e.live[id].Some? && e.live[id].value.action == Some(ReplayAction) && id in e.world.sessions
    && var s := e.world.sessions[id];
       s.state == Replaying(s.responseBytes) && e.live[id].value.position == Some(s.position)
       && s.position <= MAX_SESSION_POSITION
  }

  /** What was recorded is a canonical record that fits the request. */
  predicate RecordedFits(e: Engine, id: Id, codec: Codec)
    requires id in e.live && e.live[id].Some?
  {
    var response := File(e.world, ResponseFile(id));
    var r := ReadRecord(codec, Dependency, ResponseRecord, response, |response|);
    var q := e.live[id].value.validatedRequest;
    r.Some? && q.Some? && codec.pairValid(Dependency, q.value, r.value)
  }

  /** A replayed dependency is finished iff all of its recorded response was read and it fits the request. */
  lemma ReplayFinishSucceedsIff(e: Engine, id: Id, codec: Codec, env: Env)
    requires AllInStep(e, codec) && !e.world.capture && env.readable
    ensures FinishDependency(e, id, None, codec, env).result.Ok? <==> ReadToTheEnd(e, id) && RecordedFits(e, id, codec)
  {
    if id in e.live && e.live[id].Some? && e.live[id].value.position.Some? {
      Instance(e, id, codec);
      var d, s := e.live[id].value, e.world.sessions[id];
      var request, response := File(e.world, RequestFile(id)), File(e.world, ResponseFile(id));
      ReadIsNonempty(codec, RequestRecord, request);
      ReadIsNonempty(codec, ResponseRecord, response);
      assert response[..|response|] == response;
      if s.state.Replaying? && s.state.offset == |response| {
        assert d.response == response && s.responseBytes == |response|;
      }
      hide AllInStep, InStep, ReadRecord, File, Invalidate, Settled, Commit, MarkIncomplete;
    }
  }

  lemma ReadIsNonempty(codec: Codec, role: Role, bytes: Bytes)
    ensures ReadRecord(codec, Dependency, role, bytes, |bytes|).Some? ==> bytes != []
  {
  }

  /** With a suffix-free encoding, only the record itself reads as a record ending in it. */
  lemma SuffixDecides(codec: Codec, prefix: Bytes, response: Record)
    requires RoundTrips(codec)
    requires var spooled := prefix + codec.encode(Dependency, ResponseRecord, response);
             ReadRecord(codec, Dependency, ResponseRecord, spooled, |spooled|).Some?
    ensures var spooled := prefix + codec.encode(Dependency, ResponseRecord, response);
            SuffixFree(codec) ==> prefix == []
                                  && ReadRecord(codec, Dependency, ResponseRecord, spooled, |spooled|) == Some(response)
  {
    var bytes := codec.encode(Dependency, ResponseRecord, response);
    var spooled := prefix + bytes;
    var read := ReadRecord(codec, Dependency, ResponseRecord, spooled, |spooled|).value;
    assert codec.encode(Dependency, ResponseRecord, read) == spooled;
    if SuffixFree(codec) {
      assert spooled == bytes;
      assert codec.parse(Dependency, ResponseRecord, bytes) == Some(response);
    }
  }

  /** So a capture whose buffer already holds raw response bytes is never finished with a record of its own. */
  lemma RawBytesAreRejected(e: Engine, id: Id, response: Record, codec: Codec, env: Env)
    requires AllInStep(e, codec) && RoundTrips(codec) && SuffixFree(codec)
             && codec.encode(Dependency, ResponseRecord, response) != []
    requires id in e.live && e.live[id].Some? && e.live[id].value.response != []
    ensures FinishDependency(e, id, Some(response), codec, env).result.Err?
    ensures id !in FinishDependency(e, id, Some(response), codec, env).engine.live
            || e == FinishDependency(e, id, Some(response), codec, env).engine
  {
    if FinishDependency(e, id, Some(response), codec, env).result.Ok? {
      FinishDependencyMeansValidPair(e, id, response, codec, env);
    }
    FailedFinishReleases(e, id, Some(response), codec, env);
  }

  /** A failed finish of a dependency leaves no handle behind. */
  lemma FailedFinishReleases(e: Engine, id: Id, response: Option<Record>, codec: Codec, env: Env)
    requires FinishDependency(e, id, response, codec, env).result.Err?
    ensures id !in FinishDependency(e, id, response, codec, env).engine.live
  {
    hide WriteRecord, FinishObservation, DepValidated, Abandon, Removed;
    InvalidateReleases(e, id);
    if id in e.live && response.Some? {
      var written := WriteRecord(e, id, ResponseStream, codec.encode(Dependency, ResponseRecord, response.value),
                                 env.room, env.appended).engine;
      InvalidateReleases(written, id);
      if id in written.live && written.live[id].Some? {
        var d := written.live[id].value.(validatedResponse := response);
        var cached := written.(live := written.live[id := Some(d)]);
        ConcludeReleases(cached, id, e.live[id], codec, env);
      }
    }
    if id in e.live { ConcludeReleases(e, id, e.live[id], codec, env); }
    hide Conclude, Invalidate;
  }

  lemma InvalidateReleases(e: Engine, id: Id)
    ensures id !in Invalidate(e, id).live
  {
  }

  lemma ConcludeReleases(e: Engine, id: Id, dep: Option<Dep>, codec: Codec, env: Env)
    ensures id in e.live && e.live[id].Some? && dep.Some? && dep.value.position.Some? ==>
              Conclude(e, id, dep.value.position.value, codec, env).result.Err? ==>
                    id !in Conclude(e, id, dep.value.position.value, codec, env).engine.live
  {
    hide FinishObservation, DepValidated, Invalidate;
    InvalidateReleases(e, id);
    if id in e.live && e.live[id].Some? && dep.Some? && dep.value.position.Some?
       && DepValidated(e.live[id].value, codec).Ok? {
      var outcome := codec.outcomeOf(Dependency, DepValidated(e.live[id].value, codec).value);
      InvalidateReleases(FinishObservation(e, id, outcome, dep.value.position.value, codec, env.readable,
                                           env.recorded).engine, id);
    }
  }

  // ---- opening a dependency, and whole runs --------------------------------------------------------

  /** Binding the action or the position does not touch the bytes. */
  lemma BindInStep(e: Engine, id: Id, d: Dep, codec: Codec)
    requires AllInStep(e, codec) && id in e.live && e.live[id].Some?
    requires d == e.live[id].value.(action := d.action, position := d.position)
    ensures AllInStep(Bind(e, id, d), codec)
  {
    hide ReadRecord, File;
    Unchanged(e.world, id);
    Instance(e, id, codec);
    OthersInStep(e, Bind(e, id, d), id, codec);
  }

  lemma OpenDependencyInStep(e: Engine, id: Id, request: Record, parent: Option<int>, created: nat, codec: Codec,
                             env: Env, denv: DispatchEnv)
    requires AllInStep(e, codec) && id !in e.live
    ensures AllInStep(OpenDependency(e, id, request, parent, created, codec, env, denv).engine, codec)
  {
    hide AllInStep, InStep, OpenObservation, WriteRecord, DispatchObservation, Invalidate, Bind;
    var class_ := codec.classOf(Dependency, request);
    var start := OpenObservation(e, id, class_, parent, created);
    OpenInStep(e, id, class_, parent, created, codec);
    Spread(start.engine, id, codec);
    InvalidateInStep(start.engine, id, codec);
    OpenedIsLive(e, id, class_, parent, created);
    if start.result.Ok? && start.engine.live[id].Some? {
      var d := start.engine.live[id].value.(position := Some(start.result.value));
      BindInStep(start.engine, id, d, codec);
      var bound := Bind(start.engine, id, d);
      var bytes := codec.encode(Dependency, RequestRecord, request);
      RecordInStep(bound, id, RequestStream, bytes, env.room, env.appended, codec);
      var written := WriteRecord(bound, id, RequestStream, bytes, env.room, env.appended).engine;
      Spread(written, id, codec);
      InvalidateInStep(written, id, codec);
      DispatchInStep(written, id, codec, denv);
      var dispatched := DispatchObservation(written, id, codec, denv);
      Spread(dispatched.engine, id, codec);
      InvalidateInStep(dispatched.engine, id, codec);
      if dispatched.result.Ok? && id in dispatched.engine.live && dispatched.engine.live[id].Some? {
        BindInStep(dispatched.engine, id, dispatched.engine.live[id].value.(action := Some(dispatched.result.value)),
                   codec);
      }
    }
  }

  lemma OpenedIsLive(e: Engine, id: Id, class_: ObservationClass, parent: Option<int>, created: nat)
    ensures var start := OpenObservation(e, id, class_, parent, created);
            start.result.Ok? ==> id in start.engine.live
  {
    hide Open;
  }

  datatype Step =
    | OpenStep(id: Id, class_: ObservationClass, parent: Option<int>, created: nat)
    | OpenDependencyStep(id: Id, request: Record, parent: Option<int>, created: nat, env: Env, denv: DispatchEnv)
    | WriteStep(id: Id, stream: Stream, chunk: Bytes, room: bool, appended: nat)
    | DispatchStep(id: Id, denv: DispatchEnv)
    | ReadStep(id: Id, readable: bool, wanted: nat)
    | FinishStep(id: Id, outcome: Outcome, position: nat, readable: bool, recorded: bool)
    | FinishDependencyStep(id: Id, response: Option<Record>, env: Env)
    | AbandonStep(id: Id)

  /** Handles are fresh when they are allocated. */
  predicate Enabled(e: Engine, step: Step) {
    (step.OpenStep? || step.OpenDependencyStep?) ==> step.id !in e.live
  }

  function Apply(e: Engine, step: Step, codec: Codec): Engine {
    match step
    case OpenStep(id, class_, parent, created) => OpenObservation(e, id, class_, parent, created).engine
    case OpenDependencyStep(id, request, parent, created, env, denv) =>
           OpenDependency(e, id, request, parent, created, codec, env, denv).engine
    case WriteStep(id, stream, chunk, room, appended) => WriteObservation(e, id, stream, chunk, room, appended).engine
    case DispatchStep(id, denv) => DispatchObservation(e, id, codec, denv).engine
    case ReadStep(id, readable, wanted) => ReadObservation(e, id, readable, wanted).engine
    case FinishStep(id, outcome, position, readable, recorded) =>
           FinishObservation(e, id, outcome, position, codec, readable, recorded).engine
    case FinishDependencyStep(id, response, env) => FinishDependency(e, id, response, codec, env).engine
    case AbandonStep(id) => AbandonObservation(e, id).engine
  }

  ghost predicate Legal(e: Engine, steps: seq<Step>, codec: Codec)
    decreases |steps|
  {
    steps == [] || (Enabled(e, steps[0]) && Legal(Apply(e, steps[0], codec), steps[1..], codec))
  }

  function Run(e: Engine, steps: seq<Step>, codec: Codec): Engine
    decreases |steps|
  {
    if steps == [] then e else Run(Apply(e, steps[0], codec), steps[1..], codec)
  }

  lemma StepInStep(e: Engine, step: Step, codec: Codec)
    requires AllInStep(e, codec) && Enabled(e, step)
    ensures AllInStep(Apply(e, step, codec), codec)
  {
    hide AllInStep, InStep, OpenObservation, OpenDependency, WriteObservation, DispatchObservation, ReadObservation,
      FinishObservation, FinishDependency, AbandonObservation;
    match step
    case OpenStep(id, class_, parent, created) => OpenInStep(e, id, class_, parent, created, codec);
    case OpenDependencyStep(id, request, parent, created, env, denv) =>
      OpenDependencyInStep(e, id, request, parent, created, codec, env, denv);
    case WriteStep(id, stream, chunk, room, appended) => WriteInStep(e, id, stream, chunk, room, appended, codec);
    case DispatchStep(id, denv) => DispatchInStep(e, id, codec, denv);
    case ReadStep(id, readable, wanted) => ReadInStep(e, id, readable, wanted, codec);
    case FinishStep(id, outcome, position, readable, recorded) =>
      Spread(e, id, codec);
      FinishInStep(e, id, outcome, position, codec, readable, recorded);
    case FinishDependencyStep(id, response, env) => FinishDependencyInStep(e, id, response, codec, env);
    case AbandonStep(id) => AbandonInStep(e, id, codec);
  }

  /** From an operation without observations, every run keeps engine and coordinator in step. */
  lemma {:induction false} RunInStep(e: Engine, steps: seq<Step>, codec: Codec)
    requires AllInStep(e, codec) && Legal(e, steps, codec)
    ensures AllInStep(Run(e, steps, codec), codec)
    decreases |steps|
  {
    hide AllInStep, Apply, Enabled;
    if steps != [] {
      StepInStep(e, steps[0], codec);
      RunInStep(Apply(e, steps[0], codec), steps[1..], codec);
    }
  }

  // ---- the session object ----------------------------------------------------------------------------

  class SemanticDependencySession {
    const class_: ObservationClass
    var action: Option<Action>
    var canonicalSessionPosition: Option<nat>
    var request: Bytes
    var response: Bytes
    var validatedRequest: Option<Record>
    var validatedResponse: Option<Record>

    function State(): Dep
      reads this
    {
      Dep(class_, action, canonicalSessionPosition, request, response, validatedRequest, validatedResponse)
    }

    constructor (class_: ObservationClass)
      requires ContractFor(class_).Dependency?
      ensures Some(State()) == ForClass(class_)
    {
      this.class_ := class_;
      action, canonicalSessionPosition, request, response := None, None, [], [];
      validatedRequest, validatedResponse := None, None;
    }

    /** A second binding is refused, as is one of the position. */
    method BindAction(bound: Action) returns (ok: bool)
      modifies this`action
      ensures ok <==> old(action).None?
      ensures action == Some(bound)
    {
      ok := action.None?;
      action := Some(bound);
    }

    method Write(stream: Stream, chunk: Bytes) returns (result: Result<()>)
      modifies this`request, this`response, this`validatedResponse
      ensures match DepWrite(old(State()), stream, chunk)
              case Ok(d) => result == Ok(()) && State() == d
              case Err(f) => result == Err(f) && request == old(request) && response == old(response)
    {
      if stream.RequestStream? && validatedRequest.None? {
        if |request| + |chunk| > MAX_SEMANTIC_RECORD_BYTES {
          return Err(CaptureLimit);
        }
        request := request + chunk;
        return Ok(());
      }
      if stream.ResponseStream? && validatedRequest.Some? {
        validatedResponse := None;
        if |response| + |chunk| > MAX_SEMANTIC_RECORD_BYTES {
          return Err(CaptureLimit);
        }
        response := response + chunk;
        return Ok(());
      }
      return Err(InvalidTransition);
    }

    method Dispatch(codec: Codec) returns (result: Result<()>)
      modifies this`validatedRequest
      ensures match DepDispatch(old(State()), codec)
              case Ok(d) => result == Ok(()) && State() == d
              case Err(f) => result == Err(f) && State() == old(State())
    {
      if validatedRequest.Some? || response != [] {
        return Err(InvalidTransition);
      }
      var parsed := ReadRecord(codec, Dependency, RequestRecord, request, |request|);
      if parsed.None? {
        return Err(InvalidTransition);
      }
      if codec.classOf(Dependency, parsed.value) != class_ {
        return Err(InvalidTransition);
      }
      validatedRequest := parsed;
      return Ok(());
    }

    /** The parsed response is cached for the next call. */
    method ValidatedResponse(codec: Codec) returns (result: Result<Record>)
      modifies this`validatedResponse
      ensures result == DepValidated(old(State()), codec) == DepValidated(State(), codec)
      ensures result.Ok? ==> validatedResponse == Some(result.value)
      ensures result.Err? ==> validatedResponse == old(validatedResponse)
    {
      if validatedResponse.Some? {
        return Ok(validatedResponse.value);
      }
      if validatedRequest.None? {
        return Err(InvalidTransition);
      }
      var parsed := ReadRecord(codec, Dependency, ResponseRecord, response, |response|);
      if parsed.None? || !codec.pairValid(Dependency, validatedRequest.value, parsed.value) {
        return Err(InvalidTransition);
      }
      validatedResponse := parsed;
      return Ok(parsed.value);
    }

    method Finish(outcome: Outcome, codec: Codec) returns (result: Result<Record>)
      modifies this`validatedResponse
      ensures result == DepFinish(old(State()), outcome, codec)
    {
      result := ValidatedResponse(codec);
      if result.Ok? && codec.outcomeOf(Dependency, result.value) != outcome {
        return Err(InvalidTransition);
      }
    }
  }
}
