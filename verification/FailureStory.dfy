// What became of every failure task, told from the steps alone: who was cancelled, how each job ended,
// in which order jobs were run, which sinks are still listed, and what each wait was entitled to answer.

module FailureStory {
  import opened FailureTask
  import opened MapSums
  import opened Options

  /** What a wait has found so far. */
  datatype Finding =
    | Watching(task: TaskId)
    | NoSink
    | TooLate(task: TaskId)
    | Broken(task: TaskId)
    | Good(task: TaskId)
    | Asked(task: TaskId, idle: bool)

  datatype Story = Story(
    ends: map<TaskId, bool>,         // how the jobs that were run ended
    cancelled: set<TaskId>,
    closed: set<TaskId>,             // cancelled by the close of an engine, which drops the sink
    answered: set<TaskId>,           // a wait answered for good, and dropped the sink
    sent: seq<TaskId>,               // accepted by the worker's queue
    received: seq<TaskId>,
    waits: map<int, Finding>)

  const UNTOLD: Story := Story(map[], {}, {}, {}, [], [], map[])

  predicate Settled(finding: Finding) {
    finding.Broken? || (finding.Asked? && finding.idle)
  }

  /** What a look finds: the cancellation or the end of the job, or that the time is over. */
  function Looked(d: Story, t: TaskId, timedOut: bool): Finding {
    if t in d.cancelled then Broken(t)
    else if t in d.ends then (if d.ends[t] then Good(t) else Broken(t))
    else if timedOut then TooLate(t) else Watching(t)
  }

  /** The state is read only for the failure task that a sink names and for whether the queue took a job. */
  function Hear(d: Story, s: State, s': State, step: Step): Story {
    match step
    case Send(t, _) => if |s'.queue| > |s.queue| then d.(sent := d.sent + [t]) else d
    case CancelRejected(t) => d.(cancelled := d.cancelled + {t})
    case CancelSink(h) =>
      if h in s.sinks then
        d.(cancelled := d.cancelled + {s.sinks[h]}, closed := d.closed + {s.sinks[h]})
      else d
    case Receive => if s'.worker.Received? then d.(received := d.received + [s'.worker.task]) else d
    case Finish(ok) => if s.worker.HasJob? then d.(ends := d.ends[s.worker.task := ok]) else d
    case StartWait(w, h) => d.(waits := d.waits[w := if h in s.sinks then Watching(s.sinks[h]) else NoSink])
    case Look(w, _, timedOut) =>
      if w in d.waits && d.waits[w].Watching? then
        d.(waits := d.waits[w := Looked(d, d.waits[w].task, timedOut)])
      else d
    case RemoveWaited(w, idle) =>
      if w in d.waits && (d.waits[w].Good? || d.waits[w].Broken?) then
        var t := d.waits[w].task;
        var finding := if d.waits[w].Good? then Asked(t, idle) else d.waits[w];
        d.(waits := d.waits[w := finding], answered := if Settled(finding) then d.answered + {t} else d.answered)
      else d
    case _ => d
  }

  ghost function HearAll(d: Story, s: State, steps: seq<Step>): Story
    requires Legal(s, steps)
    decreases |steps|
  {
    if steps == [] then d else HearAll(Hear(d, s, Apply(s, steps[0]), steps[0]), Apply(s, steps[0]), steps[1..])
  }

  /** The answer that a wait is entitled to give. */
  function Entitled(finding: Finding): Answer {
    match finding
    case NoSink => Error
    case Broken(_) => Error
    case Asked(_, idle) => if idle then IdleAnswer else NotIdle
    case _ => NotIdle
  }

  // ---- the invariant -----------------------------------------------------------------------------------

  /** The sink that a failure task was registered under still names it. */
  predicate Listed(s: State, t: TaskId) {
    t in s.home && s.home[t] in s.sinks && s.sinks[s.home[t]] == t
  }

  predicate TaskTells(d: Story, s: State, t: TaskId) {
    if t in s.tasks then
      && (s.tasks[t].state.Cancelled? <==> t in d.cancelled)
      && (s.tasks[t].state.Ready? ==> t in d.ends && d.ends[t])
      && (s.tasks[t].state.Failed? ==> t in d.ends && !d.ends[t])
      && (t in d.ends && t !in d.cancelled ==> s.tasks[t].state == (if d.ends[t] then Ready else Failed))
      && t in s.enqueuers
      && (Listed(s, t) <==> t !in d.closed && t !in d.answered && !s.enqueuers[t].Rejected?)
    else t !in d.cancelled && t !in d.ends && t !in d.closed && t !in d.answered
  }

  predicate WaitTells(d: Story, s: State, w: int) {
    if w in s.waiters then
      && w in d.waits
      && match s.waiters[w]
         case Waiting(h, t) => d.waits[w] == Watching(t) && t in s.home && s.home[t] == h
         case SawReady(h, t) => d.waits[w] == Good(t) && t in s.home && s.home[t] == h
         case SawError(h, t) => d.waits[w] == Broken(t) && t in s.home && s.home[t] == h
         case Done(_, answer) => answer == Entitled(d.waits[w]) && !d.waits[w].Watching? && !d.waits[w].Good?
    else w !in d.waits
  }

  ghost predicate Tells(d: Story, s: State) {
    && d.sent == d.received + s.queue && |s.queue| <= MAX_FAILURE_TASKS
    && (forall t :: TaskTells(d, s, t)) && (forall w :: WaitTells(d, s, w))
  }

  // ---- every step ---------------------------------------------------------------------------------------

  lemma QueueTells(d: Story, s: State, step: Step)
    requires Enabled(s, step) && d.sent == d.received + s.queue && |s.queue| <= MAX_FAILURE_TASKS
    ensures Hear(d, s, Apply(s, step), step).sent
            == Hear(d, s, Apply(s, step), step).received + Apply(s, step).queue
    ensures |Apply(s, step).queue| <= MAX_FAILURE_TASKS
  {
    hide Cancel, Complete, TakeJob, RemoveIfSame, Removed;
    if step.Send? {
      assert d.received + s.queue + [step.task] == d.received + (s.queue + [step.task]);
    } else if step.Receive? {
      assert d.received + s.queue == (d.received + [s.queue[0]]) + s.queue[1..];
    }
  }

  lemma NewTask(d: Story, s: State, step: Step, t: TaskId)
    requires step.Prepare?
    requires Enabled(s, step) && TaskOk(s, t) && SinksKnown(s, t) && TaskTells(d, s, t)
    ensures TaskTells(Hear(d, s, Apply(s, step), step), Apply(s, step), t)
  {
    hide Carried, JobOk;
  }

  lemma CallerTask(d: Story, s: State, step: Step, t: TaskId)
    requires step.Send? || step.CancelRejected?
    requires Enabled(s, step) && TaskTells(d, s, t)
    ensures TaskTells(Hear(d, s, Apply(s, step), step), Apply(s, step), t)
  {
  }

  lemma WorkerTask(d: Story, s: State, step: Step, t: TaskId)
    requires step.Receive? || step.Take? || step.Finish?
    requires Enabled(s, step) && TaskTells(d, s, t)
    ensures TaskTells(Hear(d, s, Apply(s, step), step), Apply(s, step), t)
  {
    hide RemoveIfSame, Removed, Cancel;
  }

  /** What the registration of sinks says of one task. */
  predicate SinksKnown(s: State, t: TaskId) {
    forall h :: h in s.sinks && s.sinks[h] == t ==> t in s.home && s.home[t] == h
  }

  lemma SinkTask(d: Story, s: State, step: Step, t: TaskId)
    requires step.RemoveRejected? || step.CancelSink? || step.RemoveWaited?
    requires Enabled(s, step) && TaskOk(s, t) && SinksKnown(s, t) && TaskTells(d, s, t)
    requires step.RemoveWaited? ==> WaitTells(d, s, step.waiter)
    ensures TaskTells(Hear(d, s, Apply(s, step), step), Apply(s, step), t)
  {
  }

  lemma WaitingTask(d: Story, s: State, step: Step, t: TaskId)
    requires step.StartWait? || step.Look?
    requires Enabled(s, step) && TaskTells(d, s, t)
    ensures TaskTells(Hear(d, s, Apply(s, step), step), Apply(s, step), t)
  {
  }

  lemma StepTask(d: Story, s: State, step: Step, t: TaskId)
    requires Inv(s) && Enabled(s, step) && Tells(d, s)
    ensures TaskTells(Hear(d, s, Apply(s, step), step), Apply(s, step), t)
  {
    assert TaskOk(s, t) && TaskTells(d, s, t);
    assert SinksKnown(s, t) by {
      forall h | h in s.sinks && s.sinks[h] == t ensures t in s.home && s.home[t] == h { assert SinkOk(s, h); }
    }
    if step.RemoveWaited? { assert WaitTells(d, s, step.waiter); }
    hide Inv, Tells, TaskOk, SinksKnown, TaskTells, WaitTells, Apply, Enabled, Hear;
    if step.RemoveRejected? || step.CancelSink? || step.RemoveWaited? {
      SinkTask(d, s, step, t);
    } else if step.StartWait? || step.Look? {
      WaitingTask(d, s, step, t);
    } else if step.Prepare? {
      NewTask(d, s, step, t);
    } else if step.Send? || step.CancelRejected? {
      CallerTask(d, s, step, t);
    } else {
      WorkerTask(d, s, step, t);
    }
  }

  lemma NewWait(d: Story, s: State, step: Step, w: int)
    requires step.StartWait? && Enabled(s, step) && WaitTells(d, s, w) && SinkOk(s, step.sink)
    ensures WaitTells(Hear(d, s, Apply(s, step), step), Apply(s, step), w)
  {
  }

  lemma OwnWait(d: Story, s: State, step: Step, w: int)
    requires step.Look? || step.RemoveWaited?
    requires Enabled(s, step) && WaitTells(d, s, w)
    requires step.Look? && w == step.waiter ==> TaskTells(d, s, s.waiters[w].task)
    ensures WaitTells(Hear(d, s, Apply(s, step), step), Apply(s, step), w)
  {
    hide RemoveIfSame, Removed;
  }

  lemma OtherWait(d: Story, s: State, step: Step, w: int)
    requires !step.StartWait? && !step.Look? && !step.RemoveWaited?
    requires Enabled(s, step) && WaitTells(d, s, w)
    ensures WaitTells(Hear(d, s, Apply(s, step), step), Apply(s, step), w)
  {
    hide RemoveIfSame, Removed, Cancel, Complete, TakeJob;
  }

  lemma StepWait(d: Story, s: State, step: Step, w: int)
    requires Inv(s) && Enabled(s, step) && Tells(d, s)
    ensures WaitTells(Hear(d, s, Apply(s, step), step), Apply(s, step), w)
  {
    assert WaitTells(d, s, w);
    if step.StartWait? {
      assert SinkOk(s, step.sink);
      NewWait(d, s, step, w);
    } else if step.Look? || step.RemoveWaited? {
      if step.Look? { assert TaskTells(d, s, s.waiters[step.waiter].task); }
      OwnWait(d, s, step, w);
    } else {
      OtherWait(d, s, step, w);
    }
    hide Inv, Tells, TaskTells, Apply, Hear;
  }

  lemma StepTells(d: Story, s: State, step: Step)
    requires Inv(s) && Enabled(s, step) && Tells(d, s)
    ensures Tells(Hear(d, s, Apply(s, step), step), Apply(s, step))
  {
    QueueTells(d, s, step);
    var d', s' := Hear(d, s, Apply(s, step), step), Apply(s, step);
    forall t ensures TaskTells(d', s', t) { StepTask(d, s, step, t); }
    forall w ensures WaitTells(d', s', w) { StepWait(d, s, step, w); }
    hide Inv, Apply, Enabled, Hear, TaskTells, WaitTells;
  }

  lemma {:induction false} RunTells(d: Story, s: State, steps: seq<Step>)
    requires Inv(s) && Legal(s, steps) && Tells(d, s)
    ensures Tells(HearAll(d, s, steps), Run(s, steps))
    decreases |steps|
  {
    hide Inv, Apply, Enabled, Tells, Hear;
    if steps != [] {
      StepKeeps(s, steps[0]);
      StepTells(d, s, steps[0]);
      RunTells(Hear(d, s, Apply(s, steps[0]), steps[0]), Apply(s, steps[0]), steps[1..]);
    }
  }

  lemma ReachableTells(steps: seq<Step>)
    requires Legal(Init(), steps)
    ensures Tells(HearAll(UNTOLD, Init(), steps), Run(Init(), steps))
  {
    assert Inv(Init()) && Tells(UNTOLD, Init());
    RunTells(UNTOLD, Init(), steps);
  }

  // ---- what the runs tell -----------------------------------------------------------------------------

  /**
   * In every run a task is Cancelled iff somebody cancelled it, before or after its job ended; otherwise
   * it is Ready iff its job ended well and Failed iff it ended badly.
   */
  lemma StatesAreTrue(steps: seq<Step>, t: TaskId)
    requires Legal(Init(), steps) && t in Run(Init(), steps).tasks
    ensures var d, state := HearAll(UNTOLD, Init(), steps), Run(Init(), steps).tasks[t].state;
            && (state.Cancelled? <==> t in d.cancelled)
            && (state.Ready? <==> t !in d.cancelled && t in d.ends && d.ends[t])
            && (state.Failed? <==> t !in d.cancelled && t in d.ends && !d.ends[t])
  {
    ReachableTells(steps);
    assert TaskTells(HearAll(UNTOLD, Init(), steps), Run(Init(), steps), t);
    hide Run, HearAll;
  }

  /** Jobs reach the worker in the order in which they were accepted; at most sixteen wait. */
  lemma JobsInOrder(steps: seq<Step>)
    requires Legal(Init(), steps)
    ensures var d, queue := HearAll(UNTOLD, Init(), steps), Run(Init(), steps).queue;
            d.sent == d.received + queue && |queue| <= MAX_FAILURE_TASKS
  {
    ReachableTells(steps);
  }

  /** A job is accepted iff the worker is there and fewer than sixteen jobs wait for it. */
  lemma SendVerdict(s: State, t: TaskId, available: bool)
    requires Enabled(s, Send(t, available))
    ensures var s' := Apply(s, Send(t, available));
            && t in s'.enqueuers
            && (s'.enqueuers[t].Accepted? <==> available && |s.queue| < MAX_FAILURE_TASKS)
            && (s'.enqueuers[t].Accepted? ==> s'.queue == s.queue + [t])
            && (!s'.enqueuers[t].Accepted? ==> s'.enqueuers[t].CancelNext? && s'.queue == s.queue)
  {
  }

  /**
   * A sink names its task until the engine closes, the enqueue is rejected, or a wait has answered for good:
   * true, or an error because the job failed or was cancelled.
   */
  lemma ListedUntilSettled(steps: seq<Step>, t: TaskId)
    requires Legal(Init(), steps) && t in Run(Init(), steps).tasks
    ensures var d, s := HearAll(UNTOLD, Init(), steps), Run(Init(), steps);
            t in s.enqueuers
            && (Listed(s, t) <==> t !in d.closed && t !in d.answered && !s.enqueuers[t].Rejected?)
  {
    ReachableTells(steps);
    assert TaskTells(HearAll(UNTOLD, Init(), steps), Run(Init(), steps), t);
    hide Run, HearAll;
  }

  /** In every run a wait gives the answer that what it found entitles it to. */
  lemma WaitsAreTrue(steps: seq<Step>, w: int)
    requires Legal(Init(), steps) && w in Run(Init(), steps).waiters && Run(Init(), steps).waiters[w].Done?
    ensures var d := HearAll(UNTOLD, Init(), steps);
            w in d.waits && Run(Init(), steps).waiters[w].answer == Entitled(d.waits[w])
  {
    ReachableTells(steps);
    assert WaitTells(HearAll(UNTOLD, Init(), steps), Run(Init(), steps), w);
    hide Run, HearAll;
  }
}
