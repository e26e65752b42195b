// The action that a dependency session is bound to is the coordinator's mode, in every run.

module EngineModes {
  import opened Arith
  import opened Classes
  import opened EngineSession
  import opened MapSums
  import opened Options
  import opened Semantics
  import opened World

  function ActionOf(capture: bool): Action {
    if capture then CaptureAction else ReplayAction
  }

  /** Every bound action is the one that this coordinator's dispatches return. */
  ghost predicate ActionsFit(e: Engine) {
    forall id :: id in e.live && e.live[id].Some? && e.live[id].value.action.Some? ==>
      e.live[id].value.action.value == ActionOf(e.world.capture)
  }

  /** Nothing is bound anew: a handle keeps its action or goes. */
  ghost predicate BindsNothing(e: Engine, e': Engine) {
    && e'.world.capture == e.world.capture
    && forall id :: id in e'.live && e'.live[id].Some? && e'.live[id].value.action.Some? ==>
         id in e.live && e.live[id].Some? && e.live[id].value.action == e'.live[id].value.action
  }

  lemma NothingBound(e: Engine, e': Engine)
    requires ActionsFit(e) && BindsNothing(e, e')
    ensures ActionsFit(e')
  {
  }

  lemma Then(a: Engine, b: Engine, c: Engine)
    requires BindsNothing(a, b) && BindsNothing(b, c)
    ensures BindsNothing(a, c)
  {
  }

  lemma InvalidateBinds(e: Engine, id: Id)
    ensures BindsNothing(e, Invalidate(e, id))
  {
    AbandonElsewhere(e.world, id);
    hide Abandon, Elsewhere;
    assert Abandon(e.world, id).world.capture == e.world.capture by { Mode(e.world, Abandon(e.world, id).world, id); }
  }

  lemma Mode(w: World, w': World, id: Id)
    requires Elsewhere(w, w', id)
    ensures w'.capture == w.capture
  {
  }

  lemma OpenBinds(e: Engine, id: Id, class_: ObservationClass, parent: Option<int>, created: nat)
    ensures BindsNothing(e, OpenObservation(e, id, class_, parent, created).engine)
  {
    OpenElsewhere(e.world, id, class_, parent, created);
    hide Open, Elsewhere;
    Mode(e.world, Open(e.world, id, class_, parent, true, created).world, id);
  }

  lemma WriteBinds(e: Engine, id: Id, stream: Stream, chunk: Bytes, room: bool, appended: nat)
    ensures BindsNothing(e, WriteObservation(e, id, stream, chunk, room, appended).engine)
  {
    WriteElsewhere(e.world, id, stream, chunk, room, appended);
    hide Write, Elsewhere, Invalidate;
    var reply := Write(e.world, id, stream, chunk, room, appended);
    Mode(e.world, reply.world, id);
    InvalidateBinds(e, id);
    if id in e.live {
      var e1 := Engine(e.live, reply.world);
      InvalidateBinds(e1, id);
      if e.live[id].Some? && DepWrite(e.live[id].value, stream, chunk).Ok? {
        InvalidateBinds(Engine(e.live[id := Some(DepWrite(e.live[id].value, stream, chunk).value)], reply.world), id);
      }
      assert e.live[id].None? ==> e.live[id := None] == e.live;
    }
  }

  lemma DispatchBinds(e: Engine, id: Id, codec: Codec, env: DispatchEnv)
    ensures BindsNothing(e, DispatchObservation(e, id, codec, env).engine)
    ensures DispatchObservation(e, id, codec, env).result.Ok? ==>
              DispatchObservation(e, id, codec, env).result.value == ActionOf(e.world.capture)
  {
    DispatchElsewhere(e.world, id, codec, env);
    if Dispatch(e.world, id, codec, env).result.Ok? {
      DispatchAccepted(e.world, id, codec, env);
    }
    hide Dispatch, Elsewhere, Invalidate, ReadRecord;
    var reply := Dispatch(e.world, id, codec, env);
    Mode(e.world, reply.world, id);
    InvalidateBinds(e, id);
    if id in e.live {
      InvalidateBinds(Engine(e.live, reply.world), id);
      if e.live[id].Some? && DepDispatch(e.live[id].value, codec).Ok? {
        InvalidateBinds(Engine(e.live[id := Some(DepDispatch(e.live[id].value, codec).value)], reply.world), id);
      }
      assert e.live[id].None? ==> e.live[id := None] == e.live;
    }
  }

  lemma ReadBinds(e: Engine, id: Id, readable: bool, wanted: nat)
    ensures BindsNothing(e, ReadObservation(e, id, readable, wanted).engine)
  {
    ReadElsewhere(e.world, id, readable, wanted);
    hide Read, Elsewhere, Invalidate;
    var reply := Read(e.world, id, readable, wanted);
    Mode(e.world, reply.world, id);
    InvalidateBinds(Engine(e.live, reply.world), id);
  }

  lemma FinishBinds(e: Engine, id: Id, outcome: Outcome, position: nat, codec: Codec, readable: bool, recorded: bool)
    ensures BindsNothing(e, FinishObservation(e, id, outcome, position, codec, readable, recorded).engine)
  {
    FinishElsewhere(e.world, id, outcome, position, codec, readable, recorded);
    hide Finish, Elsewhere, Invalidate, DepFinish;
    var reply := Finish(e.world, id, outcome, position, codec, readable, recorded);
    Mode(e.world, reply.world, id);
    InvalidateBinds(e, id);
    InvalidateBinds(Engine(e.live, reply.world), id);
  }

  lemma AbandonBinds(e: Engine, id: Id)
    ensures BindsNothing(e, AbandonObservation(e, id).engine)
  {
    AbandonElsewhere(e.world, id);
    hide Abandon, Elsewhere;
    Mode(e.world, Abandon(e.world, id).world, id);
  }

  lemma {:induction false} RecordBinds(e: Engine, id: Id, stream: Stream, record: Bytes, room: bool, appended: nat)
    ensures BindsNothing(e, WriteRecord(e, id, stream, record, room, appended).engine)
    decreases |record|
  {
    hide WriteObservation, BindsNothing;
    if record == [] {
      assert BindsNothing(e, e) by { Itself(e); }
    } else {
      var count := Min(MAX_CHUNK_BYTES, |record|);
      var first := WriteObservation(e, id, stream, record[..count], room, appended);
      WriteBinds(e, id, stream, record[..count], room, appended);
      if first.result.Ok? {
        RecordBinds(first.engine, id, stream, record[count..], room, appended);
        Then(e, first.engine, WriteRecord(first.engine, id, stream, record[count..], room, appended).engine);
      }
    }
  }

  lemma Itself(e: Engine)
    ensures BindsNothing(e, e)
  {
  }

  lemma ConcludeBinds(e: Engine, id: Id, position: nat, codec: Codec, env: Env)
    requires id in e.live && e.live[id].Some?
    ensures BindsNothing(e, Conclude(e, id, position, codec, env).engine)
  {
    hide BindsNothing, FinishObservation, DepValidated, Invalidate;
    InvalidateBinds(e, id);
    if DepValidated(e.live[id].value, codec).Ok? {
      var outcome := codec.outcomeOf(Dependency, DepValidated(e.live[id].value, codec).value);
      FinishBinds(e, id, outcome, position, codec, env.readable, env.recorded);
      var finished := FinishObservation(e, id, outcome, position, codec, env.readable, env.recorded).engine;
      InvalidateBinds(finished, id);
      Then(e, finished, Invalidate(finished, id));
    }
  }

  lemma FinishDependencyBinds(e: Engine, id: Id, response: Option<Record>, codec: Codec, env: Env)
    ensures BindsNothing(e, FinishDependency(e, id, response, codec, env).engine)
  {
    hide BindsNothing, Conclude, WriteRecord, Invalidate;
    Itself(e);
    InvalidateBinds(e, id);
    if id in e.live && e.live[id].Some? && e.live[id].value.position.Some? {
      var position := e.live[id].value.position.value;
      ConcludeBinds(e, id, position, codec, env);
      if response.Some? {
        var bytes := codec.encode(Dependency, ResponseRecord, response.value);
        var written := WriteRecord(e, id, ResponseStream, bytes, env.room, env.appended).engine;
        RecordBinds(e, id, ResponseStream, bytes, env.room, env.appended);
        InvalidateBinds(written, id);
        Then(e, written, Invalidate(written, id));
        if id in written.live && written.live[id].Some? {
          var d := written.live[id].value.(validatedResponse := response);
          var cached := written.(live := written.live[id := Some(d)]);
          CachingBinds(written, cached, id);
          ConcludeBinds(cached, id, position, codec, env);
          Then(e, written, cached);
          Then(e, cached, Conclude(cached, id, position, codec, env).engine);
        }
      }
    }
  }

  lemma CachingBinds(e: Engine, cached: Engine, id: Id)
    requires id in e.live && e.live[id].Some? && id in cached.live && cached.live[id].Some?
    requires cached == e.(live := e.live[id := cached.live[id]])
             && cached.live[id].value.action == e.live[id].value.action
    ensures BindsNothing(e, cached)
  {
  }

  /** The one binding: the action that the dispatch returned. */
  lemma OpenDependencyFits(e: Engine, id: Id, request: Record, parent: Option<int>, created: nat, codec: Codec,
                           env: Env, denv: DispatchEnv)
    requires ActionsFit(e)
    ensures ActionsFit(OpenDependency(e, id, request, parent, created, codec, env, denv).engine)
    ensures OpenDependency(e, id, request, parent, created, codec, env, denv).engine.world.capture == e.world.capture
  {
    hide OpenObservation, WriteRecord, DispatchObservation, Invalidate, BindsNothing, ActionsFit;
    var class_ := codec.classOf(Dependency, request);
    var start := OpenObservation(e, id, class_, parent, created);
    OpenBinds(e, id, class_, parent, created);
    OpenedIsLive(e, id, class_, parent, created);
    InvalidateBinds(start.engine, id);
    Fits(e, start.engine);
    Fits(start.engine, Invalidate(start.engine, id));
    if start.result.Ok? && start.engine.live[id].Some? {
      var bound := Bind(start.engine, id, start.engine.live[id].value.(position := Some(start.result.value)));
      CachingBinds(start.engine, bound, id);
      Fits(start.engine, bound);
      var bytes := codec.encode(Dependency, RequestRecord, request);
      RecordBinds(bound, id, RequestStream, bytes, env.room, env.appended);
      var written := WriteRecord(bound, id, RequestStream, bytes, env.room, env.appended).engine;
      Fits(bound, written);
      InvalidateBinds(written, id);
      Fits(written, Invalidate(written, id));
      DispatchBinds(written, id, codec, denv);
      var dispatched := DispatchObservation(written, id, codec, denv);
      Fits(written, dispatched.engine);
      InvalidateBinds(dispatched.engine, id);
      Fits(dispatched.engine, Invalidate(dispatched.engine, id));
      if dispatched.result.Ok? && id in dispatched.engine.live && dispatched.engine.live[id].Some? {
        BoundFits(dispatched.engine, id, dispatched.engine.live[id].value.(action := Some(dispatched.result.value)));
      }
    }
  }

  lemma Fits(e: Engine, e': Engine)
    requires ActionsFit(e) && BindsNothing(e, e')
    ensures ActionsFit(e') && e'.world.capture == e.world.capture
  {
    NothingBound(e, e');
  }

  lemma BoundFits(e: Engine, id: Id, d: Dep)
    requires ActionsFit(e) && d.action == Some(ActionOf(e.world.capture))
    ensures ActionsFit(Bind(e, id, d)) && Bind(e, id, d).world.capture == e.world.capture
  {
  }

  lemma StepFits(e: Engine, step: Step, codec: Codec)
    requires ActionsFit(e)
    ensures ActionsFit(Apply(e, step, codec)) && Apply(e, step, codec).world.capture == e.world.capture
  {
    hide ActionsFit, BindsNothing, OpenObservation, OpenDependency, WriteObservation, DispatchObservation,
        ReadObservation,
      FinishObservation, FinishDependency, AbandonObservation;
    match step
    case OpenStep(id, class_, parent, created) =>
      OpenBinds(e, id, class_, parent, created);
      Fits(e, Apply(e, step, codec));
    case OpenDependencyStep(id, request, parent, created, env, denv) =>
      OpenDependencyFits(e, id, request, parent, created, codec, env, denv);
    case WriteStep(id, stream, chunk, room, appended) =>
      WriteBinds(e, id, stream, chunk, room, appended);
      Fits(e, Apply(e, step, codec));
    case DispatchStep(id, denv) => DispatchBinds(e, id, codec, denv); Fits(e, Apply(e, step, codec));
    case ReadStep(id, readable, wanted) => ReadBinds(e, id, readable, wanted); Fits(e, Apply(e, step, codec));
    case FinishStep(id, outcome, position, readable, recorded) =>
      FinishBinds(e, id, outcome, position, codec, readable, recorded); Fits(e, Apply(e, step, codec));
    case FinishDependencyStep(id, response, env) =>
      FinishDependencyBinds(e, id, response, codec, env);
      Fits(e, Apply(e, step, codec));
    case AbandonStep(id) => AbandonBinds(e, id); Fits(e, Apply(e, step, codec));
  }

  /** In every run each bound action is the coordinator's mode. */
  lemma {:induction false} BoundActionIsMode(e: Engine, steps: seq<Step>, codec: Codec)
    requires ActionsFit(e)
    ensures ActionsFit(Run(e, steps, codec)) && Run(e, steps, codec).world.capture == e.world.capture
    decreases |steps|
  {
    hide ActionsFit, Apply;
    if steps != [] {
      StepFits(e, steps[0], codec);
      BoundActionIsMode(Apply(e, steps[0], codec), steps[1..], codec);
    }
  }

  /**
   * So a dependency is only ever finished the way its coordinator's mode demands: with the caller's
   * response in capture, and in replay without one. Any other call fails and releases the handle.
   */
  lemma FinishFollowsMode(e: Engine, steps: seq<Step>, codec: Codec, id: Id, response: Option<Record>, env: Env)
    requires e.live == map[]
    ensures var e' := Run(e, steps, codec);
            FinishDependency(e', id, response, codec, env).result.Ok? ==> (response.Some? <==> e.world.capture)
  {
    hide Conclude, WriteRecord, Invalidate;
    BoundActionIsMode(e, steps, codec);
  }
}
