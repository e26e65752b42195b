// Background failure tasks: callers that enqueue, cancel and wait, and the worker that runs jobs, in
// every interleaving of their lock sections.

module FailureTask {
  import opened MapSums
  import opened Options

  type TaskId = int
  type Handle = int

  const MAX_FAILURE_TASKS: nat := 16

  /** `FailureTaskState`: a pending task still owns its job. */
  datatype TaskState = Cancelled | Failed | Pending(job: bool) | Ready | Running

  /** A task and what became of its job so far. */
  datatype Task = Task(state: TaskState, runs: nat, drops: nat)

  // ---- one task, under its mutex ----------------------------------------------------------------------

  /** `cancel`: whatever the state was, a job still held is dropped with it. */
  function Cancel(t: Task): Task {
    Task(Cancelled, t.runs, t.drops + if t.state == Pending(true) then 1 else 0)
  }

  /** `complete`: a cancelled task stays cancelled. */
  function Complete(t: Task, ok: bool): Task {
    if t.state.Cancelled? then t else t.(state := if ok then Ready else Failed)
  }

  /** `take_job`: whether the worker got a job to run. */
  function TakeJob(t: Task): (r: (Task, bool))
    ensures r.1 <==> t.state == Pending(true)
  {
    if t.state == Pending(true) then (Task(Running, t.runs + 1, t.drops), true) else (t, false)
  }

  // ---- everyone together ---------------------------------------------------------------------------

  /** Where an `operation-fail` call stands after it registered its sink. */
  datatype Enqueuer = Sending(sink: Handle) | CancelNext(sink: Handle) | RemoveNext(sink: Handle) | Accepted | Rejected

  datatype Worker = Idle | Received(task: TaskId) | HasJob(task: TaskId)

  /** A `sink-wait` call: the failure task it cloned, or its answer. */
  datatype Waiter =
    | Waiting(sink: Handle, task: TaskId)
    | SawReady(sink: Handle, task: TaskId)
    | SawError(sink: Handle, task: TaskId)
    | Done(task: TaskId, answer: Answer)
  datatype Answer = IdleAnswer | NotIdle | Error

  datatype State = State(
    tasks: map<TaskId, Task>,
    sinks: map<Handle, TaskId>,
    queue: seq<TaskId>,
    worker: Worker,
    enqueuers: map<TaskId, Enqueuer>,
    waiters: map<int, Waiter>,
    home: map<TaskId, Handle>,     // history: the sink a task was registered under
    readySeen: set<TaskId>)        // history: tasks that were ever Ready

  datatype Step =
    | Prepare(task: TaskId, sink: Handle)      // the registry section of operation-fail
    | Send(task: TaskId, available: bool)      // worker.try_send; the worker may not have started
    | CancelRejected(task: TaskId)             // reject_failure_enqueue: cancel
    | RemoveRejected(task: TaskId)             // reject_failure_enqueue: remove_sink_if_same
    | CancelSink(sink: Handle)                 // an engine closes: cancel and drop the entry
    | Receive
    | Take
    | Finish(ok: bool)                         // the job ended: complete
    | StartWait(waiter: int, sink: Handle)
    | Look(waiter: int, idle: bool, timedOut: bool)
    | RemoveWaited(waiter: int, idle: bool)    // remove_sink_if_same after the answer

  function Init(): State {
    State(map[], map[], [], Idle, map[], map[], map[], {})
  }

  predicate Enabled(s: State, step: Step) {
    match step
    case Prepare(t, h) => t !in s.tasks && h !in s.sinks && t !in s.home && t !in s.enqueuers
    case Send(t, _) => t in s.enqueuers && s.enqueuers[t].Sending?
    case CancelRejected(t) => t in s.enqueuers && s.enqueuers[t].CancelNext? && t in s.tasks
    case RemoveRejected(t) => t in s.enqueuers && s.enqueuers[t].RemoveNext?
    case CancelSink(h) => h in s.sinks && s.sinks[h] in s.tasks
    case Receive => s.worker.Idle? && s.queue != []
    case Take => s.worker.Received? && s.worker.task in s.tasks
    case Finish(_) => s.worker.HasJob? && s.worker.task in s.tasks
    case StartWait(w, h) => w !in s.waiters
    case Look(w, _, _) => w in s.waiters && s.waiters[w].Waiting? && s.waiters[w].task in s.tasks
    case RemoveWaited(w, _) => w in s.waiters && (s.waiters[w].SawReady? || s.waiters[w].SawError?)
  }

  function SetTask(s: State, t: TaskId, task: Task): State {
    s.(tasks := s.tasks[t := task], readySeen := if task.state.Ready? then s.readySeen + {t} else s.readySeen)
  }

  function RemoveIfSame(sinks: map<Handle, TaskId>, h: Handle, t: TaskId): map<Handle, TaskId> {
    if h in sinks && sinks[h] == t then Removed(sinks, h) else sinks
  }

  function Apply(s: State, step: Step): State
    requires Enabled(s, step)
  {
    match step
    case Prepare(t, h) =>
      s.(tasks := s.tasks[t := Task(Pending(true), 0, 0)], sinks := s.sinks[h := t],
         enqueuers := s.enqueuers[t := Sending(h)],
         home := s.home[t := h])
    case Send(t, available) =>
      if available && |s.queue| < MAX_FAILURE_TASKS then
           s.(queue := s.queue + [t], enqueuers := s.enqueuers[t := Accepted])
      else s.(enqueuers := s.enqueuers[t := CancelNext(s.enqueuers[t].sink)])
    case CancelRejected(t) =>
           SetTask(s, t, Cancel(s.tasks[t])).(enqueuers := s.enqueuers[t := RemoveNext(s.enqueuers[t].sink)])
    case RemoveRejected(t) =>
      s.(sinks := RemoveIfSame(s.sinks, s.enqueuers[t].sink, t), enqueuers := s.enqueuers[t := Rejected])
    case CancelSink(h) => SetTask(s, s.sinks[h], Cancel(s.tasks[s.sinks[h]])).(sinks := Removed(s.sinks, h))
    case Receive => s.(queue := s.queue[1..], worker := Received(s.queue[0]))
    case Take =>
      var (task, got) := TakeJob(s.tasks[s.worker.task]);
      SetTask(s, s.worker.task, task).(worker := if got then HasJob(s.worker.task) else Idle)
    case Finish(ok) => SetTask(s, s.worker.task, Complete(s.tasks[s.worker.task], ok)).(worker := Idle)
    case StartWait(w, h) =>
      s.(waiters := s.waiters[w := if h in s.sinks then Waiting(h, s.sinks[h]) else Done(0, Error)])
    case Look(w, idle, timedOut) =>
      var t := s.waiters[w].task;
      var h := s.waiters[w].sink;
      (match s.tasks[t].state
       case Cancelled => s.(waiters := s.waiters[w := SawError(h, t)])
       case Failed => s.(waiters := s.waiters[w := SawError(h, t)])
       case Ready => s.(waiters := s.waiters[w := SawReady(h, t)])
       case Pending(_) => if timedOut then s.(waiters := s.waiters[w := Done(t, NotIdle)]) else s
       case Running => if timedOut then s.(waiters := s.waiters[w := Done(t, NotIdle)]) else s)
    case RemoveWaited(w, idle) =>
      var t := s.waiters[w].task;
      var failed := s.waiters[w].SawError?;
      s.(waiters := s.waiters[w := Done(t, if failed then Error else if idle then IdleAnswer else NotIdle)],
         sinks := if failed || idle then RemoveIfSame(s.sinks, s.waiters[w].sink, t) else s.sinks)
  }

  // ---- the invariant --------------------------------------------------------------------------------

  /** The job of a task was run or dropped exactly once, unless the failure task still holds it. */
  predicate JobOk(task: Task) {
    if task.state.Pending? then task.state.job && task.runs == task.drops == 0
    else task.runs + task.drops == 1 && (task.drops == 1 ==> task.state.Cancelled?)
  }

  /** Who will still look at a pending or running task. */
  predicate Carried(s: State, t: TaskId)
    requires t in s.tasks
  {
    && t in s.enqueuers
    && (s.tasks[t].state.Pending? ==> s.enqueuers[t].Sending? || s.enqueuers[t].CancelNext? || t in s.queue
                                      || s.worker == Received(t))
    && (s.tasks[t].state.Running? ==> s.worker == HasJob(t))
    && (s.worker == HasJob(t) ==> s.tasks[t].state.Running? || s.tasks[t].state.Cancelled?)
    && (t in s.queue || s.worker == Received(t) || s.worker == HasJob(t) ==> s.enqueuers[t].Accepted?)
  }

  predicate TaskOk(s: State, t: TaskId) {
    && (t in s.tasks <==> t in s.home) && (t in s.tasks <==> t in s.enqueuers)
    && (t in s.queue || s.worker == Received(t) || s.worker == HasJob(t) ==> t in s.tasks)
    && (t in s.tasks ==>
          && JobOk(s.tasks[t]) && Carried(s, t)
          && (s.tasks[t].state.Ready? ==> t in s.readySeen)
          && (t in s.readySeen ==> s.tasks[t].state.Ready? || s.tasks[t].state.Cancelled?)
          && match s.enqueuers[t]
             case Sending(h) => s.home[t] == h
             case CancelNext(h) => s.home[t] == h
             case RemoveNext(h) => s.home[t] == h && s.tasks[t].state.Cancelled?
             case Accepted => true
             case Rejected => s.tasks[t].state.Cancelled? && (s.home[t] in s.sinks ==> s.sinks[s.home[t]] != t))
    && (t in s.readySeen ==> t in s.tasks)
  }

  /** A sink names the failure task that was registered under it. */
  predicate SinkOk(s: State, h: Handle) {
    h in s.sinks ==> s.sinks[h] in s.home && s.home[s.sinks[h]] == h
  }

  predicate WaiterOk(s: State, w: int) {
    w in s.waiters ==>
      match s.waiters[w]
      case Waiting(h, t) => t in s.tasks
      case SawReady(h, t) => t in s.tasks && t in s.readySeen
      case SawError(h, t) => t in s.tasks
      case Done(t, answer) => answer.IdleAnswer? ==> t in s.readySeen
  }

  predicate QueueDistinct(queue: seq<TaskId>, worker: Worker) {
    && (forall i, j :: 0 <= i < j < |queue| ==> queue[i] != queue[j])
    && (worker.Received? || worker.HasJob? ==> worker.task !in queue)
  }

  ghost predicate Inv(s: State) {
    && (forall t :: TaskOk(s, t)) && (forall h :: SinkOk(s, h)) && (forall w :: WaiterOk(s, w))
    && QueueDistinct(s.queue, s.worker)
  }

  /** Two states that record the same about one task. */
  predicate SameAt(s: State, s': State, x: TaskId) {
    && (x in s.tasks <==> x in s'.tasks) && (x in s.tasks ==> s'.tasks[x] == s.tasks[x])
    && (x in s.enqueuers <==> x in s'.enqueuers) && (x in s.enqueuers ==> s'.enqueuers[x] == s.enqueuers[x])
    && (x in s.home <==> x in s'.home) && (x in s.home ==> s'.home[x] == s.home[x])
    && (x in s.readySeen <==> x in s'.readySeen)
    && (x in s.queue <==> x in s'.queue)
    && (s.worker == Received(x) <==> s'.worker == Received(x)) && (s.worker == HasJob(x) <==> s'.worker == HasJob(x))
    && (x in s'.home && s'.home[x] in s'.sinks && s'.sinks[s'.home[x]] == x ==>
          s'.home[x] in s.sinks && s.sinks[s'.home[x]] == x)
  }

  lemma SameStaysOk(s: State, s': State, x: TaskId)
    requires TaskOk(s, x) && SameAt(s, s', x)
    ensures TaskOk(s', x)
  {
    hide JobOk;
  }

  /** A step that concerns one task. */
  lemma OneTask(s: State, s': State, t: TaskId)
    requires Inv(s) && TaskOk(s', t) && QueueDistinct(s'.queue, s'.worker)
    requires forall x :: x != t ==> SameAt(s, s', x)
    requires forall h :: h in s'.sinks ==> (h in s.sinks && s.sinks[h] == s'.sinks[h])
                                           || (s'.sinks[h] in s'.home && s'.home[s'.sinks[h]] == h)
    requires forall x :: x in s.home ==> x in s'.home && s'.home[x] == s.home[x]
    requires s'.waiters == s.waiters && (t in s.tasks ==> t in s'.tasks) && (t in s.readySeen ==> t in s'.readySeen)
    ensures Inv(s')
  {
    hide TaskOk, QueueDistinct;
    forall x ensures TaskOk(s', x) {
      if x != t { SameStaysOk(s, s', x); }
    }
    forall h ensures SinkOk(s', h) { assert SinkOk(s, h); }
    forall w ensures WaiterOk(s', w) {
      assert WaiterOk(s, w);
      if w in s.waiters && s.waiters[w].task != t { assert SameAt(s, s', s.waiters[w].task); }
    }
  }

  lemma Known(s: State, t: TaskId, h: Handle)
    requires Inv(s)
    ensures TaskOk(s, t) && SinkOk(s, h) && QueueDistinct(s.queue, s.worker)
  {
  }

  lemma PrepareKeeps(s: State, t: TaskId, h: Handle)
    requires Inv(s) && Enabled(s, Prepare(t, h))
    ensures Inv(Apply(s, Prepare(t, h)))
  {
    var s' := Apply(s, Prepare(t, h));
    assert TaskOk(s, t);
    assert forall x :: x in s.sinks ==> SinkOk(s, x);
    hide Inv;
    OneTask(s, s', t);
  }

  lemma SendKeeps(s: State, t: TaskId, available: bool)
    requires Inv(s) && Enabled(s, Send(t, available))
    ensures Inv(Apply(s, Send(t, available)))
  {
    hide Inv, JobOk, QueueDistinct;
    Known(s, t, 0);
    assert forall x :: x in s.queue + [t] <==> x in s.queue || x == t;
    Appended(s.queue, s.worker, t);
    OneTask(s, Apply(s, Send(t, available)), t);
  }

  lemma Appended(queue: seq<TaskId>, worker: Worker, t: TaskId)
    ensures QueueDistinct(queue, worker) && t !in queue && (worker.Received? || worker.HasJob? ==> worker.task != t) ==>
              QueueDistinct(queue + [t], worker)
  {
  }

  lemma CancelledTaskOk(s: State, t: TaskId)
    requires TaskOk(s, t) && Enabled(s, CancelRejected(t))
    ensures TaskOk(Apply(s, CancelRejected(t)), t)
  {
    var s' := Apply(s, CancelRejected(t));
    assert s'.tasks[t] == Cancel(s.tasks[t]) && s'.enqueuers[t] == RemoveNext(s.enqueuers[t].sink);
    assert s'.queue == s.queue && s'.worker == s.worker && s'.readySeen == s.readySeen && s'.sinks == s.sinks
           && s'.home == s.home;
  }

  lemma CancelledSinkOk(s: State, h: Handle)
    requires Enabled(s, CancelSink(h)) && TaskOk(s, s.sinks[h]) && SinkOk(s, h)
    ensures TaskOk(Apply(s, CancelSink(h)), s.sinks[h])
  {
    hide Removed;
    RemovedEverywhere(s.sinks, h);
    var s' := Apply(s, CancelSink(h));
    var t := s.sinks[h];
    assert s'.tasks[t] == Cancel(s.tasks[t]) && s'.enqueuers == s.enqueuers;
    assert s'.queue == s.queue && s'.worker == s.worker && s'.readySeen == s.readySeen && s'.home == s.home;
  }

  lemma FinishedTaskOk(s: State, ok: bool)
    requires Enabled(s, Finish(ok)) && TaskOk(s, s.worker.task)
    ensures TaskOk(Apply(s, Finish(ok)), s.worker.task)
  {
  }

  lemma CancelKeeps(s: State, t: TaskId)
    requires Inv(s) && Enabled(s, CancelRejected(t))
    ensures Inv(Apply(s, CancelRejected(t)))
  {
    hide Inv, QueueDistinct, TaskOk;
    Known(s, t, 0);
    CancelledTaskOk(s, t);
    OneTask(s, Apply(s, CancelRejected(t)), t);
  }

  lemma RemoveKeeps(s: State, t: TaskId)
    requires Inv(s) && Enabled(s, RemoveRejected(t))
    ensures Inv(Apply(s, RemoveRejected(t)))
  {
    hide Removed, Inv, JobOk, QueueDistinct;
    Known(s, t, 0);
    RemovedEverywhere(s.sinks, s.enqueuers[t].sink);
    OneTask(s, Apply(s, RemoveRejected(t)), t);
  }

  lemma CancelSinkKeeps(s: State, h: Handle)
    requires Inv(s) && Enabled(s, CancelSink(h))
    ensures Inv(Apply(s, CancelSink(h)))
  {
    hide Inv, QueueDistinct, TaskOk, Removed;
    Known(s, s.sinks[h], h);
    RemovedEverywhere(s.sinks, h);
    CancelledSinkOk(s, h);
    OneTask(s, Apply(s, CancelSink(h)), s.sinks[h]);
  }

  lemma ReceiveKeeps(s: State)
    requires Inv(s) && Enabled(s, Receive)
    ensures Inv(Apply(s, Receive))
  {
    var s' := Apply(s, Receive);
    var t := s.queue[0];
    assert s.queue == [t] + s'.queue;
    assert forall x :: x in s.queue <==> x == t || x in s'.queue;
    assert TaskOk(s, t);
    forall i | 0 <= i < |s'.queue| ensures s'.queue[i] != t { assert s'.queue[i] == s.queue[i + 1]; }
    assert QueueDistinct(s'.queue, s'.worker);
    hide Inv, JobOk, QueueDistinct;
    OneTask(s, s', t);
  }

  lemma WorkerFree(queue: seq<TaskId>, worker: Worker)
    requires QueueDistinct(queue, worker) && !worker.Idle?
    ensures QueueDistinct(queue, Idle) && QueueDistinct(queue, HasJob(worker.task))
  {
  }

  lemma TakeKeeps(s: State)
    requires Inv(s) && Enabled(s, Take)
    ensures Inv(Apply(s, Take))
  {
    hide Inv, QueueDistinct;
    Known(s, s.worker.task, 0);
    WorkerFree(s.queue, s.worker);
    OneTask(s, Apply(s, Take), s.worker.task);
  }

  lemma FinishKeeps(s: State, ok: bool)
    requires Inv(s) && Enabled(s, Finish(ok))
    ensures Inv(Apply(s, Finish(ok)))
  {
    hide Inv, TaskOk, QueueDistinct, Complete;
    Known(s, s.worker.task, 0);
    FinishedTaskOk(s, ok);
    WorkerFree(s.queue, s.worker);
    OneTask(s, Apply(s, Finish(ok)), s.worker.task);
  }

  lemma WaiterKeeps(s: State, step: Step)
    requires Inv(s) && Enabled(s, step) && (step.StartWait? || step.Look? || step.RemoveWaited?)
    ensures Inv(Apply(s, step))
  {
    hide Removed, Carried, JobOk;
    var s' := Apply(s, step);
    assert WaiterOk(s, step.waiter);
    if step.StartWait? {
      assert SinkOk(s, step.sink);
      if step.sink in s.sinks { assert TaskOk(s, s.sinks[step.sink]); }
    } else {
      RemovedEverywhere(s.sinks, s.waiters[step.waiter].sink);
      assert TaskOk(s, s.waiters[step.waiter].task);
    }
    forall x ensures TaskOk(s', x) { assert TaskOk(s, x); SameCarried(s, s', x); }
    forall x ensures SinkOk(s', x) { assert SinkOk(s, x); }
    forall w ensures WaiterOk(s', w) { assert WaiterOk(s, w); }
  }

  lemma SameCarried(s: State, s': State, t: TaskId)
    requires s'.tasks == s.tasks && s'.queue == s.queue && s'.worker == s.worker && s'.enqueuers == s.enqueuers
    ensures t in s.tasks ==> (Carried(s, t) <==> Carried(s', t))
  {
  }

  lemma StepKeeps(s: State, step: Step)
    requires Inv(s) && Enabled(s, step)
    ensures Inv(Apply(s, step))
  {
    hide Inv, Apply, Enabled;
    match step
    case Prepare(t, h) => PrepareKeeps(s, t, h);
    case Send(t, available) => SendKeeps(s, t, available);
    case CancelRejected(t) => CancelKeeps(s, t);
    case RemoveRejected(t) => RemoveKeeps(s, t);
    case CancelSink(h) => CancelSinkKeeps(s, h);
    case Receive => ReceiveKeeps(s);
    case Take => TakeKeeps(s);
    case Finish(ok) => FinishKeeps(s, ok);
    case StartWait(_, _) => WaiterKeeps(s, step);
    case Look(_, _, _) => WaiterKeeps(s, step);
    case RemoveWaited(_, _) => WaiterKeeps(s, step);
  }

  // ---- whole runs ------------------------------------------------------------------------------

  ghost predicate Legal(s: State, steps: seq<Step>)
    decreases |steps|
  {
    steps == [] || (Enabled(s, steps[0]) && Legal(Apply(s, steps[0]), steps[1..]))
  }

  function Run(s: State, steps: seq<Step>): State
    requires Legal(s, steps)
    decreases |steps|
  {
    if steps == [] then s else Run(Apply(s, steps[0]), steps[1..])
  }

  lemma {:induction false} RunKeeps(s: State, steps: seq<Step>)
    requires Inv(s) && Legal(s, steps)
    ensures Inv(Run(s, steps))
    decreases |steps|
  {
    hide Inv, Apply, Enabled;
    if steps != [] {
      StepKeeps(s, steps[0]);
      RunKeeps(Apply(s, steps[0]), steps[1..]);
    }
  }

  ghost predicate Reachable(s: State) {
    exists steps :: Legal(Init(), steps) && Run(Init(), steps) == s
  }

  lemma ReachableInv(s: State)
    requires Reachable(s)
    ensures Inv(s)
  {
    hide Apply, Enabled;
    var steps :| Legal(Init(), steps) && Run(Init(), steps) == s;
    assert Inv(Init());
    RunKeeps(Init(), steps);
  }

  /** A job is never both run and dropped, nor twice; while its task is pending, someone still carries it. */
  lemma JobsEndOnce(s: State, t: TaskId)
    requires Reachable(s) && t in s.tasks
    ensures s.tasks[t].runs + s.tasks[t].drops <= 1
    ensures s.tasks[t].runs + s.tasks[t].drops == 1 <==> !s.tasks[t].state.Pending?
    ensures t in s.enqueuers
    ensures s.tasks[t].state.Pending? ==>
              s.enqueuers[t].Sending? || s.enqueuers[t].CancelNext? || t in s.queue || s.worker == Received(t)
    ensures s.tasks[t].state.Running? ==> s.worker == HasJob(t)
  {
    ReachableInv(s);
    assert TaskOk(s, t);
  }

  /** When nothing moves any more, every job was run or dropped exactly once. */
  lemma QuietMeansSettled(s: State, t: TaskId)
    requires Reachable(s) && t in s.tasks && s.queue == [] && s.worker.Idle?
    requires forall x :: x in s.enqueuers ==> s.enqueuers[x].Accepted? || s.enqueuers[x].Rejected?
    ensures s.tasks[t].runs + s.tasks[t].drops == 1
            && (s.tasks[t].state.Ready? || s.tasks[t].state.Failed? || s.tasks[t].state.Cancelled?)
  {
    ReachableInv(s);
    assert TaskOk(s, t);
  }

  /** Cancelled is absorbing. */
  lemma {:induction false} CancelledStays(s: State, steps: seq<Step>, t: TaskId)
    requires Legal(s, steps) && t in s.tasks && s.tasks[t].state.Cancelled?
    ensures t in Run(s, steps).tasks && Run(s, steps).tasks[t].state.Cancelled?
    decreases |steps|
  {
    if steps != [] {
      CancelledStep(s, steps[0], t);
      hide Apply, Enabled;
      CancelledStays(Apply(s, steps[0]), steps[1..], t);
    }
  }

  lemma CancelledStep(s: State, step: Step, t: TaskId)
    requires Enabled(s, step) && t in s.tasks && s.tasks[t].state.Cancelled?
    ensures t in Apply(s, step).tasks && Apply(s, step).tasks[t].state.Cancelled?
  {
    hide RemoveIfSame, Removed;
  }

  /** A wait answers true only for a task that was Ready. */
  lemma IdleOnlyIfReady(s: State, w: int)
    requires Reachable(s) && w in s.waiters && s.waiters[w].Done? && s.waiters[w].answer.IdleAnswer?
    ensures s.waiters[w].task in s.readySeen && s.waiters[w].task in s.tasks
    ensures s.tasks[s.waiters[w].task].state.Ready? || s.tasks[s.waiters[w].task].state.Cancelled?
    ensures s.tasks[s.waiters[w].task].runs == 1 || s.tasks[s.waiters[w].task].state.Cancelled?
  {
    ReachableInv(s);
    assert WaiterOk(s, w);
    assert TaskOk(s, s.waiters[w].task);
  }

  /** After a rejected enqueue no sink names the failure task, and its job was dropped or is never run by the worker. */
  lemma RejectedLeavesNoSink(s: State, t: TaskId)
    requires Reachable(s) && t in s.enqueuers && s.enqueuers[t].Rejected?
    ensures forall h :: h in s.sinks ==> s.sinks[h] != t
    ensures t in s.tasks && s.tasks[t].state.Cancelled? && t !in s.queue && s.worker != Received(t)
            && s.worker != HasJob(t)
  {
    ReachableInv(s);
    assert TaskOk(s, t);
    forall h | h in s.sinks ensures s.sinks[h] != t {
      assert SinkOk(s, h);
    }
  }

  // ---- the failure-task object ---------------------------------------------------------------------------

  /** What one wake-up of a waiter finds: the state, and whether its time is over. */
  datatype View = View(state: TaskState, timedOut: bool)

  datatype WaitResult = Answered(idle: bool) | WaitFailed

  predicate Unsettled(state: TaskState) {
    state.Pending? || state.Running?
  }

  /** The k-th look is the first that finds the failure task settled or the time over. */
  predicate IsFirstAnswer(views: seq<View>, k: int) {
    && 0 <= k < |views| && (Unsettled(views[k].state) ==> views[k].timedOut)
    && forall i :: 0 <= i < k ==> Unsettled(views[i].state) && !views[i].timedOut
  }

  class FailureTaskCell {
    var state: TaskState
    ghost var runs: nat
    ghost var drops: nat

    ghost function Value(): Task
      reads this
    {
      Task(state, runs, drops)
    }

    constructor ()
      ensures Value() == Task(Pending(true), 0, 0) && JobOk(Value())
    {
      state, runs, drops := Pending(true), 0, 0;
    }

    method CancelTask()
      requires JobOk(Value())
      modifies this
      ensures Value() == Cancel(old(Value())) && JobOk(Value())
    {
      drops := drops + if state == Pending(true) then 1 else 0;
      state := Cancelled;
    }

    method CompleteTask(ok: bool)
      requires JobOk(Value()) && (state.Running? || state.Cancelled?)
      modifies this`state
      ensures Value() == Complete(old(Value()), ok) && JobOk(Value())
    {
      if state == Cancelled {
        return;
      }
      state := if ok then Ready else Failed;
    }

    method TakeTaskJob() returns (got: bool)
      requires JobOk(Value())
      modifies this`state, this`runs
      ensures (Value(), got) == TakeJob(old(Value())) && JobOk(Value())
    {
      if state != Pending(true) {
        return false;
      }
      state := Running;
      runs := runs + 1;
      return true;
    }
  }

  /**
   * `wait_until_idle`: sleeps while the failure task is unsettled and time remains. It answers true only if the
   * first settled state it meets is Ready and that sink is idle in time.
   */
  method WaitUntilIdle(views: seq<View>, sinkIdle: bool) returns (result: WaitResult)
    requires views != [] && views[|views| - 1].timedOut
    ensures exists k :: IsFirstAnswer(views, k) && result == match views[k].state
                                                            case Cancelled => WaitFailed
                                                            case Failed => WaitFailed
                                                            case Ready => Answered(sinkIdle)
                                                            case Pending(_) => Answered(false)
                                                            case Running => Answered(false)
  {
    var k := 0;
    while Unsettled(views[k].state) && !views[k].timedOut
      invariant 0 <= k < |views| && forall i :: 0 <= i < k ==> Unsettled(views[i].state) && !views[i].timedOut
      decreases |views| - k
    {
      k := k + 1;
    }
    assert IsFirstAnswer(views, k);
    match views[k].state {
      case Cancelled => return WaitFailed;
      case Failed => return WaitFailed;
      case Ready => return Answered(sinkIdle);
      case Pending(_) => return Answered(false);
      case Running => return Answered(false);
    }
  }
}
