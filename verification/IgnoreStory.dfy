// What the overflow flag of the ignore table means: a thread asked for a guard and got none, after it
// had seen every slot taken.

module IgnoreStory {
  import opened Arith
  import opened IgnoreTable

  /** How often each thread asked for a guard and gave one back, and the taken slots that its last request met. */
  datatype Story = Story(asked: map<Tid, nat>, returned: map<Tid, nat>, met: map<Tid, set<nat>>)

  const UNTOLD: Story := Story(map[], map[], map[])

  function CountOf(counts: map<Tid, nat>, t: Tid): nat {
    if t in counts then counts[t] else 0
  }

  function MetBy(d: Story, t: Tid): set<nat> {
    if t in d.met then d.met[t] else {}
  }

  function Note(d: Story, s: State, step: Step): Story {
    match step
    case Acquire(t) => d.(asked := d.asked[t := CountOf(d.asked, t) + 1], met := d.met[t := {}])
    case Release(t, _) => d.(returned := d.returned[t := CountOf(d.returned, t) + 1])
    case Advance(t) =>
      if t in s.threads && s.threads[t].pc.Swap? && s.threads[t].pc.slot < |s.tids|
         && s.tids[s.threads[t].pc.slot] != 0 then
        d.(met := d.met[t := MetBy(d, t) + {s.threads[t].pc.slot}])
      else d
    case _ => d
  }

  ghost function Follow(d: Story, s: State, steps: seq<Step>): Story
    requires Legal(s, steps)
    decreases |steps|
  {
    if steps == [] then d else Follow(Note(d, s, steps[0]), Apply(s, steps[0]), steps[1..])
  }

  /** A request is under way. */
  predicate Asking(pc: Pc) {
    pc.Find? || pc.Deepen? || pc.Swap? || pc.Store? || pc.Overflow?
  }

  /** The requests that ended without a guard. */
  function Denied(d: Story, s: State, t: Tid): int
    requires t in s.threads
  {
    CountOf(d.asked, t) - CountOf(d.returned, t) - |s.threads[t].guards| - (if Asking(s.threads[t].pc) then 1 else 0)
  }

  predicate AllMet(met: set<nat>, k: nat) {
    forall i: nat :: i < k ==> i in met
  }

  predicate ThreadTells(d: Story, s: State, t: Tid) {
    t in s.threads ==>
      && Denied(d, s, t) >= 0
      && (s.threads[t].pc.Swap? ==> AllMet(MetBy(d, t), s.threads[t].pc.slot))
      && (s.threads[t].pc.Overflow? ==> AllMet(MetBy(d, t), MAX_IGNORED_THREADS))
  }

  predicate WasDenied(d: Story, s: State, t: Tid) {
    t in s.threads && Denied(d, s, t) > 0
  }

  ghost predicate SomeoneDenied(d: Story, s: State) {
    exists t :: WasDenied(d, s, t)
  }

  ghost predicate Tells(d: Story, s: State) {
    (forall t :: ThreadTells(d, s, t)) && (s.overflowed <==> SomeoneDenied(d, s))
  }

  // ---- every step -----------------------------------------------------------------------------------

  /** What a step makes of one thread. */
  predicate ThreadGoes(d: Story, d': Story, s: State, s': State, t: Tid, denied: bool)
    requires t in s.threads
  {
    t in s'.threads && Denied(d', s', t) == Denied(d, s, t) + (if denied then 1 else 0)
  }

  lemma SearchGoes(d: Story, s: State, t: Tid)
    requires Enabled(s, Advance(t)) && ThreadTells(d, s, t) && (s.threads[t].pc.Find? || s.threads[t].pc.Swap?)
    ensures ThreadTells(Note(d, s, Advance(t)), Apply(s, Advance(t)), t)
            && ThreadGoes(d, Note(d, s, Advance(t)), s, Apply(s, Advance(t)), t, false)
  {
  }

  lemma GuardGoes(d: Story, s: State, t: Tid)
    requires Enabled(s, Advance(t)) && ThreadTells(d, s, t) && (s.threads[t].pc.Deepen? || s.threads[t].pc.Store?)
    ensures ThreadTells(Note(d, s, Advance(t)), Apply(s, Advance(t)), t)
            && ThreadGoes(d, Note(d, s, Advance(t)), s, Apply(s, Advance(t)), t, false)
  {
  }

  lemma EndGoes(d: Story, s: State, t: Tid)
    requires Enabled(s, Advance(t)) && ThreadTells(d, s, t)
    requires s.threads[t].pc.Overflow? || s.threads[t].pc.Clear? || s.threads[t].pc.Underflow?
    ensures ThreadTells(Note(d, s, Advance(t)), Apply(s, Advance(t)), t)
            && ThreadGoes(d, Note(d, s, Advance(t)), s, Apply(s, Advance(t)), t, s.threads[t].pc.Overflow?)
  {
  }

  lemma AskGoes(d: Story, s: State, step: Step, t: Tid)
    requires Enabled(s, step) && ThreadTells(d, s, t) && (step == Acquire(t) || (step.Release? && step.tid == t))
    ensures ThreadTells(Note(d, s, step), Apply(s, step), t)
            && ThreadGoes(d, Note(d, s, step), s, Apply(s, step), t, false)
  {
  }

  /** Another thread's step, or the tracer's. */
  lemma OtherGoes(d: Story, s: State, step: Step, t: Tid)
    requires Enabled(s, step) && ThreadTells(d, s, t) && t in s.threads
    requires step.Acquire? || step.Release? || step.Advance? ==> step.tid != t
    ensures ThreadTells(Note(d, s, step), Apply(s, step), t)
            && ThreadGoes(d, Note(d, s, step), s, Apply(s, step), t, false)
  {
    LeavesThread(s, step, t);
    hide Apply;
  }

  lemma LeavesThread(s: State, step: Step, t: Tid)
    requires Enabled(s, step) && t in s.threads
    requires step.Acquire? || step.Release? || step.Advance? ==> step.tid != t
    ensures t in Apply(s, step).threads && Apply(s, step).threads[t] == s.threads[t]
  {
  }

  lemma NoNewThread(s: State, step: Step, t: Tid)
    requires Enabled(s, step) && t in Apply(s, step).threads
    ensures t in s.threads
  {
  }

  /** A step changes one thread; only a full scan ends a request without a guard. */
  lemma StepThread(d: Story, s: State, step: Step, t: Tid)
    requires Enabled(s, step) && ThreadTells(d, s, t)
    ensures ThreadTells(Note(d, s, step), Apply(s, step), t)
    ensures t in s.threads <==> t in Apply(s, step).threads
    ensures t in s.threads ==> ThreadGoes(d, Note(d, s, step), s, Apply(s, step), t,
                                          step == Advance(t) && s.threads[t].pc.Overflow?)
  {
    if t in Apply(s, step).threads { NoNewThread(s, step, t); }
    hide Apply, Note, Denied;
    if t in s.threads {
      if step == Advance(t) {
        var pc := s.threads[t].pc;
        if pc.Find? || pc.Swap? { SearchGoes(d, s, t); }
        else if pc.Deepen? || pc.Store? { GuardGoes(d, s, t); }
        else { EndGoes(d, s, t); }
      } else if step == Acquire(t) || (step.Release? && step.tid == t) {
        AskGoes(d, s, step, t);
      } else {
        OtherGoes(d, s, step, t);
      }
    }
  }

  lemma FlagIs(s: State, step: Step)
    requires Inv(s) && Enabled(s, step)
    ensures Apply(s, step).overflowed <==> s.overflowed || (step.Advance? && s.threads[step.tid].pc.Overflow?)
  {
    if step.Advance? { assert ThreadOk(s, step.tid); }
    hide Inv, ThreadOk;
  }

  lemma StepTells(d: Story, s: State, step: Step)
    requires Inv(s) && Enabled(s, step) && Tells(d, s)
    ensures Tells(Note(d, s, step), Apply(s, step))
  {
    FlagIs(s, step);
    var d', s' := Note(d, s, step), Apply(s, step);
    forall t
      ensures ThreadTells(d', s', t) && (t in s.threads <==> t in s'.threads)
      ensures t in s.threads ==>
                ThreadGoes(d, d', s, s', t, step == Advance(t) && s.threads[t].pc.Overflow?)
    {
      assert ThreadTells(d, s, t);
      StepThread(d, s, step, t);
    }
    hide Inv, Apply, Note, Denied;
    if s.overflowed {
      var t :| WasDenied(d, s, t);
      assert WasDenied(d', s', t);
    } else if step.Advance? && s.threads[step.tid].pc.Overflow? {
      assert ThreadTells(d, s, step.tid) && WasDenied(d', s', step.tid);
    } else {
      forall t | WasDenied(d', s', t) ensures WasDenied(d, s, t) {}
    }
  }

  lemma {:induction false} RunTells(d: Story, s: State, steps: seq<Step>)
    requires Inv(s) && Legal(s, steps) && Tells(d, s)
    ensures Tells(Follow(d, s, steps), Run(s, steps))
    decreases |steps|
  {
    hide Inv, Apply, Enabled, Note, Tells;
    if steps != [] {
      StepKeeps(s, steps[0]);
      StepTells(d, s, steps[0]);
      RunTells(Note(d, s, steps[0]), Apply(s, steps[0]), steps[1..]);
    }
  }

  lemma ReachableTells(threads: set<Tid>, steps: seq<Step>)
    requires 0 !in threads && Legal(Init(threads), steps)
    ensures Tells(Follow(UNTOLD, Init(threads), steps), Run(Init(threads), steps))
  {
    InitOk(threads);
    assert Tells(UNTOLD, Init(threads));
    RunTells(UNTOLD, Init(threads), steps);
  }

  // ---- what the runs tell -----------------------------------------------------------------------------

  /**
   * In every run each request of a thread has led to a guard, is under way, or was denied; the flag is set
   * iff one was denied.
   */
  lemma FlaggedIffDenied(threads: set<Tid>, steps: seq<Step>)
    requires 0 !in threads && Legal(Init(threads), steps)
    ensures var d, s := Follow(UNTOLD, Init(threads), steps), Run(Init(threads), steps);
            && (s.overflowed <==> SomeoneDenied(d, s))
            && forall t :: t in s.threads ==> Denied(d, s, t) >= 0
  {
    ReachableTells(threads, steps);
    var d, s := Follow(UNTOLD, Init(threads), steps), Run(Init(threads), steps);
    hide Run, Follow;
    forall t | t in s.threads ensures Denied(d, s, t) >= 0 { assert ThreadTells(d, s, t); }
  }

  /** A request is only denied after it met each of the 64 slots taken. */
  lemma DeniedAfterAll(threads: set<Tid>, steps: seq<Step>, t: Tid)
    requires 0 !in threads && Legal(Init(threads), steps)
    requires t in Run(Init(threads), steps).threads && Run(Init(threads), steps).threads[t].pc.Overflow?
    ensures AllMet(MetBy(Follow(UNTOLD, Init(threads), steps), t), MAX_IGNORED_THREADS)
  {
    ReachableTells(threads, steps);
    assert ThreadTells(Follow(UNTOLD, Init(threads), steps), Run(Init(threads), steps), t);
  }
}
