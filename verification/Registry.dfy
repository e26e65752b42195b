// The engine registry: engines own operations and sinks, operations own observations, and every
// handle of every kind comes from one counter.

module Registry {
  import opened Arith
  import opened MapSums
  import opened Options

  type Handle = int
  type TaskId = int

  const MAX_ENGINES: nat := 64
  const MAX_OPERATIONS: nat := 512
  const MAX_OBSERVATION_SESSIONS: nat := 1024
  const MAX_SINKS: nat := 16

  datatype Sink = Sink(engine: Handle, task: TaskId)

  /** How an operation left the registry. */
  datatype Consumption = Abandoned | Succeeded | Moved(sink: Handle) | DroppedWithEngine

  datatype Tables = Tables(
    engines: set<Handle>,
    operations: map<Handle, Handle>,     // operation to engine
    observations: map<Handle, Handle>,   // observation to operation
    sinks: map<Handle, Sink>)

  // ---- the ownership forest --------------------------------------------------------------------------

  predicate InUse(t: Tables, h: Handle) {
    h in t.engines || h in t.operations || h in t.observations || h in t.sinks
  }

  /** One handle: of one kind only, already allocated, and with a live owner. */
  predicate NodeOk(t: Tables, nextHandle: nat, h: Handle) {
    && (InUse(t, h) ==> 1 <= h < nextHandle)
    && (h in t.engines ==> h !in t.operations && h !in t.observations && h !in t.sinks)
    && (h in t.operations ==> h !in t.observations && h !in t.sinks && t.operations[h] in t.engines)
    && (h in t.observations ==> h !in t.sinks && t.observations[h] in t.operations)
    && (h in t.sinks ==> t.sinks[h].engine in t.engines)
  }

  /** Every observation has a live operation, every operation and sink a live engine, and no handle is used twice. */
  ghost predicate Forest(t: Tables, nextHandle: nat) {
    forall h :: NodeOk(t, nextHandle, h)
  }

  predicate Capped(t: Tables) {
    && |t.engines| <= MAX_ENGINES && |t.operations| <= MAX_OPERATIONS
    && |t.observations| <= MAX_OBSERVATION_SESSIONS && |t.sinks| <= MAX_SINKS
  }

  /** The handle is the engine itself or hangs below it. */
  predicate Under(t: Tables, h: Handle, engine: Handle) {
    || h == engine
    || (h in t.operations && t.operations[h] == engine)
    || (h in t.observations && t.observations[h] in t.operations && t.operations[t.observations[h]] == engine)
    || (h in t.sinks && t.sinks[h].engine == engine)
  }

  /** The tables without everything under an engine. */
  function Without(t: Tables, engine: Handle): Tables {
    Tables(t.engines - {engine},
           map o | o in t.operations && !Under(t, o, engine) :: t.operations[o],
           map b | b in t.observations && !Under(t, b, engine) :: t.observations[b],
           map s | s in t.sinks && !Under(t, s, engine) :: t.sinks[s])
  }

  /** `remove_operation_observations`. */
  function RemoveOperationObservations(observations: map<Handle, Handle>, operation: Handle): map<Handle, Handle> {
    map b | b in observations && observations[b] != operation :: observations[b]
  }

  function WithoutOperation(t: Tables, operation: Handle): Tables {
    t.(operations := Removed(t.operations, operation),
       observations := RemoveOperationObservations(t.observations, operation))
  }

  /** `retain` of the entries whose engine is another one. */
  function RetainOperations(operations: map<Handle, Handle>, engine: Handle): map<Handle, Handle> {
    map o | o in operations && operations[o] != engine :: operations[o]
  }

  function RetainObservations(observations: map<Handle, Handle>, operationHandles: set<Handle>): map<Handle, Handle> {
    map b | b in observations && observations[b] !in operationHandles :: observations[b]
  }

  function RetainSinks(sinks: map<Handle, Sink>, engine: Handle): map<Handle, Sink> {
    map s | s in sinks && sinks[s].engine != engine :: sinks[s]
  }

  function OperationsOf(operations: map<Handle, Handle>, engine: Handle): set<Handle> {
    set o | o in operations && operations[o] == engine
  }

  function TasksOf(sinks: map<Handle, Sink>, engine: Handle): set<TaskId> {
    set s | s in sinks && sinks[s].engine == engine :: sinks[s].task
  }

  lemma Smaller<V>(a: map<Handle, V>, b: map<Handle, V>)
    requires a.Keys <= b.Keys
    ensures |a| <= |b|
  {
    assert b.Keys == a.Keys + (b.Keys - a.Keys);
    assert |a| == |a.Keys| && |b| == |b.Keys|;
  }

  lemma WithoutKeeps(t: Tables, engine: Handle, nextHandle: nat)
    requires Forest(t, nextHandle) && Capped(t) && engine in t.engines
    ensures Forest(Without(t, engine), nextHandle) && Capped(Without(t, engine))
    ensures forall h :: InUse(Without(t, engine), h) <==> InUse(t, h) && !Under(t, h, engine)
  {
    var r := Without(t, engine);
    Smaller(r.operations, t.operations);
    Smaller(r.observations, t.observations);
    Smaller(r.sinks, t.sinks);
    assert t.engines == r.engines + {engine};
    forall h ensures NodeOk(r, nextHandle, h) && (InUse(r, h) <==> InUse(t, h) && !Under(t, h, engine)) {
      assert NodeOk(t, nextHandle, h);
      WithoutNode(t, engine, nextHandle, h);
    }
  }

  lemma WithoutNode(t: Tables, engine: Handle, nextHandle: nat, h: Handle)
    requires NodeOk(t, nextHandle, h) && engine in t.engines
    requires h in t.observations ==> NodeOk(t, nextHandle, t.observations[h])
    ensures NodeOk(Without(t, engine), nextHandle, h)
    ensures InUse(Without(t, engine), h) <==> InUse(t, h) && !Under(t, h, engine)
  {
  }

  lemma WithoutOperationKeeps(t: Tables, operation: Handle, nextHandle: nat)
    requires Forest(t, nextHandle) && Capped(t)
    ensures Forest(WithoutOperation(t, operation), nextHandle) && Capped(WithoutOperation(t, operation))
  {
    var r := WithoutOperation(t, operation);
    Smaller(r.operations, t.operations);
    Smaller(r.observations, t.observations);
    forall h ensures NodeOk(r, nextHandle, h) {
      assert NodeOk(t, nextHandle, h);
    }
  }

  lemma AddEngine(t: Tables, nextHandle: nat)
    requires Forest(t, nextHandle) && nextHandle >= 1
    ensures Forest(t.(engines := t.engines + {nextHandle}), nextHandle + 1) && nextHandle !in t.engines
  {
    assert NodeOk(t, nextHandle, nextHandle);
    var t', next := t.(engines := t.engines + {nextHandle}), nextHandle + 1;
    forall h ensures NodeOk(t', next, h) { assert NodeOk(t, nextHandle, h); }
  }

  lemma AddOperation(t: Tables, nextHandle: nat, engine: Handle)
    requires Forest(t, nextHandle) && nextHandle >= 1 && engine in t.engines
    ensures Forest(t.(operations := t.operations[nextHandle := engine]), nextHandle + 1) && nextHandle !in t.operations
  {
    assert NodeOk(t, nextHandle, nextHandle);
    var t', next := t.(operations := t.operations[nextHandle := engine]), nextHandle + 1;
    forall h ensures NodeOk(t', next, h) { assert NodeOk(t, nextHandle, h); }
  }

  lemma AddObservation(t: Tables, nextHandle: nat, operation: Handle)
    requires Forest(t, nextHandle) && nextHandle >= 1 && operation in t.operations
    ensures Forest(t.(observations := t.observations[nextHandle := operation]), nextHandle + 1)
            && nextHandle !in t.observations
  {
    assert NodeOk(t, nextHandle, nextHandle);
    var t', next := t.(observations := t.observations[nextHandle := operation]), nextHandle + 1;
    forall h ensures NodeOk(t', next, h) { assert NodeOk(t, nextHandle, h); }
  }

  lemma AddSink(t: Tables, nextHandle: nat, sink: Sink)
    requires Forest(t, nextHandle) && nextHandle >= 1 && sink.engine in t.engines
    ensures Forest(t.(sinks := t.sinks[nextHandle := sink]), nextHandle + 1) && nextHandle !in t.sinks
  {
    assert NodeOk(t, nextHandle, nextHandle);
    var t', next := t.(sinks := t.sinks[nextHandle := sink]), nextHandle + 1;
    forall h ensures NodeOk(t', next, h) { assert NodeOk(t, nextHandle, h); }
  }

  /** What lies under an engine, kind by kind. */
  lemma UnderIs(t: Tables, nextHandle: nat, engine: Handle)
    requires Forest(t, nextHandle) && engine in t.engines
    ensures forall o :: o in t.operations ==> (Under(t, o, engine) <==> t.operations[o] == engine)
    ensures forall b :: b in t.observations ==>
              t.observations[b] in t.operations && (Under(t, b, engine) <==> t.operations[t.observations[b]] == engine)
    ensures forall s :: s in t.sinks ==> (Under(t, s, engine) <==> t.sinks[s].engine == engine)
  {
    forall h ensures NodeOk(t, nextHandle, h) {}
    assert NodeOk(t, nextHandle, engine);
    forall b | b in t.observations
      ensures t.observations[b] in t.operations && (Under(t, b, engine) <==> t.operations[t.observations[b]] == engine)
    {
      assert NodeOk(t, nextHandle, b);
    }
    forall o | o in t.operations ensures Under(t, o, engine) <==> t.operations[o] == engine {
      assert NodeOk(t, nextHandle, o);
    }
    forall s | s in t.sinks ensures Under(t, s, engine) <==> t.sinks[s].engine == engine {
      assert NodeOk(t, nextHandle, s);
    }
  }

  lemma WithoutIs(t: Tables, nextHandle: nat, engine: Handle)
    requires Forest(t, nextHandle) && engine in t.engines
    ensures Without(t, engine) == Tables(t.engines - {engine}, RetainOperations(t.operations, engine),
                                         RetainObservations(t.observations, OperationsOf(t.operations, engine)),
                                         RetainSinks(t.sinks, engine))
  {
    UnderIs(t, nextHandle, engine);
    hide Under, NodeOk;
  }

  lemma CounterRises(t: Tables, nextHandle: nat)
    requires Forest(t, nextHandle)
    ensures Forest(t, nextHandle + 1) && !InUse(t, nextHandle)
  {
    assert NodeOk(t, nextHandle, nextHandle);
    var t', next := t, nextHandle + 1;
    forall h ensures NodeOk(t', next, h) { assert NodeOk(t, nextHandle, h); }
  }

  /** Observations and sinks own nothing. */
  lemma LeafKeeps(t: Tables, nextHandle: nat, observations: map<Handle, Handle>, sinks: map<Handle, Sink>)
    requires Forest(t, nextHandle) && Capped(t)
    requires observations.Keys <= t.observations.Keys
    requires forall b :: b in observations ==> observations[b] == t.observations[b]
    requires sinks.Keys <= t.sinks.Keys && forall s :: s in sinks ==> sinks[s] == t.sinks[s]
    ensures Forest(t.(observations := observations, sinks := sinks), nextHandle)
            && Capped(t.(observations := observations, sinks := sinks))
  {
    Smaller(observations, t.observations);
    Smaller(sinks, t.sinks);
    forall h ensures NodeOk(t.(observations := observations, sinks := sinks), nextHandle, h) {
      assert NodeOk(t, nextHandle, h);
    }
  }

  lemma OwnerLives(t: Tables, nextHandle: nat, operation: Handle)
    requires Forest(t, nextHandle) && operation in t.operations
    ensures t.operations[operation] in t.engines && operation < nextHandle
  {
    assert NodeOk(t, nextHandle, operation);
  }

  lemma Grows<V>(m: map<Handle, V>, h: Handle, v: V)
    requires h !in m
    ensures |m[h := v]| == |m| + 1
  {
    assert m[h := v].Keys == m.Keys + {h};
    assert |m| == |m.Keys| && |m[h := v]| == |m[h := v].Keys|;
  }

  /** Each operation ever begun is either live or was consumed, once. */
  ghost predicate HistoryOk(operations: map<Handle, Handle>, begun: set<Handle>, consumed: map<Handle, Consumption>,
                            nextHandle: nat) {
    forall o :: (o in begun <==> o in operations || o in consumed) && !(o in operations && o in consumed)
                && (o in begun ==> o < nextHandle)
  }

  function DroppedBy(operations: set<Handle>): map<Handle, Consumption> {
    map o | o in operations :: DroppedWithEngine
  }

  /** Closing an engine moves its operations from live to consumed. */
  lemma HistoryOfClose(operations: map<Handle, Handle>, begun: set<Handle>, consumed: map<Handle, Consumption>,
                       nextHandle: nat, engine: Handle)
    requires HistoryOk(operations, begun, consumed, nextHandle)
    ensures HistoryOk(RetainOperations(operations, engine), begun,
                      consumed + DroppedBy(OperationsOf(operations, engine)), nextHandle)
  {
  }

  // ---- the registry ------------------------------------------------------------------------------------

  class Registry {
    var engines: set<Handle>
    var operations: map<Handle, Handle>
    var observations: map<Handle, Handle>
    var sinks: map<Handle, Sink>
    var nextHandle: nat
    ghost var begun: set<Handle>                        // history: operations ever begun
    ghost var consumed: map<Handle, Consumption>        // history: how each one ended
    ghost var cancelled: set<TaskId>                    // history: tasks cancelled by a close

    function State(): Tables
      reads this
    {
      Tables(engines, operations, observations, sinks)
    }

    ghost predicate Valid()
      reads this
    {
      && Forest(State(), nextHandle) && Capped(State()) && 1 <= nextHandle <= U64_MAX
      && HistoryOk(operations, begun, consumed, nextHandle)
    }

    constructor ()
      ensures Valid() && State() == Tables({}, map[], map[], map[]) && nextHandle == 1 && begun == {}
              && consumed == map[] && cancelled == {}
    {
      engines, operations, observations, sinks, nextHandle := {}, map[], map[], map[], 1;
      begun, consumed, cancelled := {}, map[], {};
    }

    /** Handles are never reused; the last one is never given out. */
    method AllocateHandle() returns (handle: Option<Handle>)
      requires Valid()
      modifies this`nextHandle
      ensures Valid()
      ensures handle == if old(nextHandle) < U64_MAX then Some(old(nextHandle)) else None
      ensures nextHandle == old(nextHandle) + (if handle.Some? then 1 else 0)
      ensures handle.Some? ==> !InUse(State(), handle.value) && handle.value !in begun
    {
      hide NodeOk;
      if nextHandle + 1 > U64_MAX {
        return None;
      }
      CounterRises(State(), nextHandle);
      handle := Some(nextHandle);
      nextHandle := nextHandle + 1;
    }

    /** `accepted` is whether project, subject and adapters are valid. */
    method OpenEngine(accepted: bool) returns (handle: Option<Handle>)
      requires Valid()
      modifies this`engines, this`nextHandle
      ensures Valid()
      ensures handle.Some? <==> |old(engines)| < MAX_ENGINES && accepted && old(nextHandle) < U64_MAX
      ensures engines == old(engines) + (if handle.Some? then {handle.value} else {})
      ensures handle.Some? ==> handle.value == old(nextHandle) && !InUse(old(State()), handle.value)
    {
      handle := None;
      if |engines| >= MAX_ENGINES || !accepted {
        return;
      }
      hide NodeOk;
      AddEngine(State(), nextHandle);
      handle := AllocateHandle();
      if handle.Some? {
        engines := engines + {handle.value};
      }
    }

    /** Removes exactly what the engine transitively owns and cancels exactly the failure tasks of its sinks. */
    method CloseEngine(engine: Handle) returns (ok: bool)
      requires Valid()
      modifies this`engines, this`operations, this`observations, this`sinks, this`consumed, this`cancelled
      ensures Valid()
      ensures ok <==> engine in old(engines)
      ensures !ok ==> State() == old(State()) && cancelled == old(cancelled) && consumed == old(consumed)
      ensures ok ==> State() == Without(old(State()), engine)
      ensures ok ==> forall h :: InUse(State(), h) <==> InUse(old(State()), h) && !Under(old(State()), h, engine)
      ensures ok ==> cancelled == old(cancelled) + TasksOf(old(sinks), engine)
      ensures ok ==> consumed == old(consumed) + DroppedBy(OperationsOf(old(operations), engine))
    {
      if engine !in engines {
        return false;
      }
      ghost var before := State();
      WithoutKeeps(before, engine, nextHandle);
      WithoutIs(before, nextHandle, engine);
      HistoryOfClose(operations, begun, consumed, nextHandle, engine);
      hide NodeOk, Under, Without, RetainOperations, RetainObservations, RetainSinks, TasksOf, OperationsOf, InUse,
          Forest,
        Capped, HistoryOk, DroppedBy;
      engines := engines - {engine};
      var operationHandles := OperationsOf(operations, engine);
      observations := RetainObservations(observations, operationHandles);
      consumed := consumed + DroppedBy(operationHandles);
      operations := RetainOperations(operations, engine);
      cancelled := cancelled + TasksOf(sinks, engine);
      sinks := RetainSinks(sinks, engine);
      return true;
    }

    method BeginOperation(engine: Handle, started: bool) returns (handle: Option<Handle>)
      requires Valid()
      modifies this`operations, this`nextHandle, this`begun
      ensures Valid()
      ensures handle.Some? <==> |old(operations)| < MAX_OPERATIONS && engine in engines && started
                                && old(nextHandle) < U64_MAX
      ensures handle.None? ==> operations == old(operations) && begun == old(begun)
      ensures handle.Some? ==> handle.value == old(nextHandle) && operations == old(operations)[handle.value := engine]
                               && begun == old(begun) + {handle.value}
    {
      handle := None;
      if |operations| >= MAX_OPERATIONS || engine !in engines || !started {
        return;
      }
      hide NodeOk;
      AddOperation(State(), nextHandle, engine);
      handle := AllocateHandle();
      if handle.Some? {
        Grows(operations, handle.value, engine);
        operations := operations[handle.value := engine];
        begun := begun + {handle.value};
      }
    }

    /** A handle is taken before the operation is looked up, so a failure uses it up. */
    method OpenObservation(operation: Handle, accepted: bool) returns (handle: Option<Handle>)
      requires Valid()
      modifies this`observations, this`nextHandle
      ensures Valid()
      ensures handle.Some? <==> |old(observations)| < MAX_OBSERVATION_SESSIONS && operation in operations && accepted
                                && old(nextHandle) < U64_MAX
      ensures handle.None? ==> observations == old(observations)
      ensures handle.Some? ==> handle.value == old(nextHandle)
                               && observations == old(observations)[handle.value := operation]
    {
      handle := None;
      if |observations| >= MAX_OBSERVATION_SESSIONS {
        return;
      }
      hide NodeOk;
      if operation in operations { AddObservation(State(), nextHandle, operation); }
      var number := AllocateHandle();
      if number.None? || operation !in operations || !accepted {
        return;
      }
      Grows(observations, number.value, operation);
      observations := observations[number.value := operation];
      return number;
    }

    /** A finished, abandoned or invalidated observation leaves. */
    method RemoveObservation(handle: Handle)
      requires Valid()
      modifies this`observations
      ensures Valid() && observations == old(observations) - {handle}
    {
      hide NodeOk;
      LeafKeeps(State(), nextHandle, observations - {handle}, sinks);
      observations := observations - {handle};
    }

    /** Takes an operation out with its observations, and records how it ended. */
    method Consume(operation: Handle, ghost how: Consumption) returns (ok: bool)
      requires Valid()
      modifies this`operations, this`observations, this`consumed
      ensures Valid()
      ensures ok <==> operation in old(operations)
      ensures State() == WithoutOperation(old(State()), operation)
      ensures consumed == if ok then old(consumed)[operation := how] else old(consumed)
    {
      hide NodeOk, Removed, RemoveOperationObservations;
      WithoutOperationKeeps(State(), operation, nextHandle);
      observations := RemoveOperationObservations(observations, operation);
      ok := operation in operations;
      if ok {
        RemovedEverywhere(operations, operation);
        operations := Removed(operations, operation);
        consumed := consumed[operation := how];
      } else {
        RemovedAbsent(operations, operation);
      }
    }

    method SucceedOperation(operation: Handle) returns (ok: bool)
      requires Valid()
      modifies this`operations, this`observations, this`consumed
      ensures Valid() && (ok <==> operation in old(operations)) && State() == WithoutOperation(old(State()), operation)
      ensures consumed == if ok then old(consumed)[operation := Succeeded] else old(consumed)
    {
      ok := Consume(operation, Succeeded);
    }

    method AbandonOperation(operation: Handle) returns (ok: bool)
      requires Valid()
      modifies this`operations, this`observations, this`consumed
      ensures Valid() && (ok <==> operation in old(operations)) && State() == WithoutOperation(old(State()), operation)
      ensures consumed == if ok then old(consumed)[operation := Abandoned] else old(consumed)
    {
      ok := Consume(operation, Abandoned);
    }

    /**
     * The first lock section of `operation-fail`: a live operation is consumed exactly once, by being
     * moved into one new sink's task or, at capacity, with a bad token or without a handle, abandoned.
     */
    method FailOperation(operation: Handle, task: TaskId, tokenOk: bool) returns (sink: Option<Handle>)
      requires Valid()
      modifies this`operations, this`observations, this`sinks, this`nextHandle, this`consumed
      ensures Valid()
      ensures sink.Some? <==> operation in old(operations) && |old(sinks)| < MAX_SINKS && tokenOk
                              && old(nextHandle) < U64_MAX
      ensures operation !in old(operations) ==> consumed == old(consumed)
      ensures operation in old(operations) ==>
                operation !in old(consumed)
                    && consumed == old(consumed)[operation := if sink.Some? then Moved(sink.value) else Abandoned]
      ensures State() == WithoutOperation(old(State()), operation).(sinks := sinks)
      ensures sinks == if sink.Some? then old(sinks)[sink.value := Sink(old(operations)[operation], task)]
                       else old(sinks)
      ensures sink.Some? ==> sink.value == old(nextHandle) && sink.value !in old(sinks)
    {
      sink := None;
      var atCapacity := |sinks| >= MAX_SINKS;
      if operation !in operations {
        var gone := Consume(operation, Abandoned);
        return;
      }
      hide NodeOk;
      var engine := operations[operation];
      OwnerLives(State(), nextHandle, operation);
      ghost var how := if !atCapacity && tokenOk && nextHandle < U64_MAX then Moved(nextHandle) else Abandoned;
      var taken := Consume(operation, how);
      if atCapacity || !tokenOk {
        return;
      }
      AddSink(State(), nextHandle, Sink(engine, task));
      var handle := AllocateHandle();
      if handle.None? {
        return;
      }
      Grows(sinks, handle.value, Sink(engine, task));
      sinks := sinks[handle.value := Sink(engine, task)];
      return handle;
    }

    /** `remove_sink_if_same`. */
    method RemoveSinkIfSame(sink: Handle, task: TaskId)
      requires Valid()
      modifies this`sinks
      ensures Valid()
      ensures sinks == if sink in old(sinks) && old(sinks)[sink].task == task then old(sinks) - {sink} else old(sinks)
    {
      hide NodeOk;
      if sink in sinks && sinks[sink].task == task {
        LeafKeeps(State(), nextHandle, observations, sinks - {sink});
        sinks := sinks - {sink};
      }
    }
  }

  /** Closing one engine leaves the trees of the others alone. */
  lemma OtherTreesStay(t: Tables, engine: Handle, other: Handle, nextHandle: nat, h: Handle)
    requires Forest(t, nextHandle) && engine in t.engines && other in t.engines && other != engine && InUse(t, h)
    ensures Under(Without(t, engine), h, other) <==> Under(t, h, other)
  {
    assert NodeOk(t, nextHandle, h) && NodeOk(t, nextHandle, other) && NodeOk(t, nextHandle, engine);
    if h in t.observations {
      assert NodeOk(t, nextHandle, t.observations[h]);
    }
  }

  /** No handle is under two engines. */
  lemma OneRoot(t: Tables, nextHandle: nat, h: Handle, a: Handle, b: Handle)
    requires Forest(t, nextHandle) && InUse(t, h) && a in t.engines && b in t.engines
    requires Under(t, h, a) && Under(t, h, b)
    ensures a == b
  {
    assert NodeOk(t, nextHandle, h);
  }
}
