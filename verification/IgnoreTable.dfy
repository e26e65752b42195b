// The table of ignored threads, one atomic instruction per step: 64 slots of a thread id and a
// depth, acquired and released by the traced threads and scanned by the tracer.

module IgnoreTable {
  import opened Arith

  const MAX_IGNORED_THREADS: nat := 64

  type Tid = int

  /** The next atomic instruction of a thread inside `ignore_current_thread` or `IgnoreGuard::drop`. */
  datatype Pc =
    | Ready
    | Find(slot: nat)       // load ignored_tids[slot], first loop
    | Deepen(slot: nat)     // fetch_add on ignored_depths[slot]
    | Swap(slot: nat)       // compare_exchange on ignored_tids[slot], second loop
    | Store(slot: nat)      // store 1 to ignored_depths[slot]
    | Overflow              // no slot: store 1 to overflowed
    | Clear(slot: nat)      // the last guard is gone: store 0 to ignored_tids[slot]
    | Underflow             // the depth was 0: store 1 to overflowed

  /** A thread and the slots of its live guards. */
  datatype Thread = Thread(pc: Pc, guards: multiset<nat>)

  /** The tracer's scan for one stopped thread. */
  datatype Tracer =
    | Resting
    | ScanDepth(target: Tid, slot: nat)
    | ScanTid(target: Tid, slot: nat)
    | Verdict(target: Tid, ignored: bool)

  datatype State = State(
    tids: seq<Tid>,
    depths: seq<nat>,
    overflowed: bool,
    threads: map<Tid, Thread>,
    tracer: Tracer,
    home: map<Tid, nat>)     // history: the slot whose tid a thread has set and not yet cleared

  datatype Step =
    | Acquire(tid: Tid)
    | Release(tid: Tid, slot: nat)
    | Advance(tid: Tid)
    | Stop(tid: Tid)         // the thread enters a system call and is_ignored starts
    | Scan
    | Resume

  function Init(threads: set<Tid>): State {
    State(seq(MAX_IGNORED_THREADS, _ => 0), seq(MAX_IGNORED_THREADS, _ => 0), false,
          map t | t in threads :: Thread(Ready, multiset{}), Resting, map[])
  }

  predicate Stopped(s: State, t: Tid) {
    !s.tracer.Resting? && s.tracer.target == t
  }

  predicate Runs(s: State, t: Tid) {
    t in s.threads && !Stopped(s, t)
  }

  predicate SlotInRange(pc: Pc) {
    (pc.Find? || pc.Deepen? || pc.Swap? || pc.Store? || pc.Clear?) ==> pc.slot < MAX_IGNORED_THREADS
  }

  predicate Shape(s: State) {
    |s.tids| == |s.depths| == MAX_IGNORED_THREADS
  }

  predicate Enabled(s: State, step: Step) {
    && Shape(s)
    && match step
       case Acquire(t) => Runs(s, t) && s.threads[t].pc.Ready? && |s.threads[t].guards| < U64 - 1
       case Release(t, k) => Runs(s, t) && s.threads[t].pc.Ready? && s.threads[t].guards[k] > 0
                             && k < MAX_IGNORED_THREADS
       case Advance(t) => Runs(s, t) && !s.threads[t].pc.Ready? && SlotInRange(s.threads[t].pc)
       case Stop(t) => s.tracer.Resting? && t in s.threads && s.threads[t].pc.Ready?
       case Scan => (s.tracer.ScanDepth? || s.tracer.ScanTid?) && s.tracer.slot < MAX_IGNORED_THREADS
       case Resume => s.tracer.Verdict?
  }

  function SetThread(s: State, t: Tid, thread: Thread): State {
    s.(threads := s.threads[t := thread])
  }

  function Apply(s: State, step: Step): State
    requires Enabled(s, step)
  {
    match step
    case Acquire(t) => SetThread(s, t, s.threads[t].(pc := Find(0)))
    case Release(t, k) =>
      var previous := s.depths[k];
      SetThread(s.(depths := s.depths[k := if previous == 0 then U64 - 1 else previous - 1]), t,
                Thread(if previous == 1 then Clear(k) else if previous == 0 then Underflow else Ready,
                       s.threads[t].guards - multiset{k}))
    case Advance(t) => ApplyAdvance(s, t)
    case Stop(t) => s.(tracer := ScanDepth(t, 0))
    case Scan =>
      var t, k := s.tracer.target, s.tracer.slot;
      if s.tracer.ScanDepth? && s.depths[k] > 0 then s.(tracer := ScanTid(t, k))
      else if s.tracer.ScanTid? && s.tids[k] == t then s.(tracer := Verdict(t, true))
      else if k + 1 < MAX_IGNORED_THREADS then s.(tracer := ScanDepth(t, k + 1))
      else s.(tracer := Verdict(t, false))
    case Resume => s.(tracer := Resting)
  }

  function ApplyAdvance(s: State, t: Tid): State
    requires Enabled(s, Advance(t))
  {
    var thread := s.threads[t];
    match thread.pc
    case Ready => s
    case Find(k) =>
      SetThread(s, t, thread.(pc :=
        if s.tids[k] == t then Deepen(k) else if k + 1 < MAX_IGNORED_THREADS then Find(k + 1) else Swap(0)))
    case Deepen(k) =>
      SetThread(s.(depths := s.depths[k := (s.depths[k] + 1) % U64]), t, Thread(Ready, thread.guards + multiset{k}))
    case Swap(k) =>
      if s.tids[k] == 0 then
        SetThread(s.(tids := s.tids[k := t], home := s.home[t := k]), t, thread.(pc := Store(k)))
      else
        SetThread(s, t, thread.(pc := if k + 1 < MAX_IGNORED_THREADS then Swap(k + 1) else Overflow))
    case Store(k) => SetThread(s.(depths := s.depths[k := 1]), t, Thread(Ready, thread.guards + multiset{k}))
    case Overflow => SetThread(s.(overflowed := true), t, thread.(pc := Ready))
    case Clear(k) => SetThread(s.(tids := s.tids[k := 0], home := s.home - {t}), t, thread.(pc := Ready))
    case Underflow => SetThread(s.(overflowed := true), t, thread.(pc := Ready))
  }

  // ---- the invariant -----------------------------------------------------------------------------

  predicate Settled(s: State, t: Tid, guards: multiset<nat>) {
    t in s.home <==> |guards| > 0
  }

  /** What holds of one thread at each of its instructions. */
  predicate ThreadOk(s: State, t: Tid) {
    t in s.threads ==>
      var thread := s.threads[t];
      && t != 0
      && |thread.guards| < U64
      && (t in s.home ==>
            && s.home[t] < |s.tids| == |s.depths| && s.tids[s.home[t]] == t
            && s.depths[s.home[t]] == |thread.guards| == thread.guards[s.home[t]])
      && (t !in s.home ==> |thread.guards| == 0)
      && match thread.pc {
           case Ready => Settled(s, t, thread.guards)
           case Find(k) => k < MAX_IGNORED_THREADS && Settled(s, t, thread.guards) && |thread.guards| < U64 - 1
                           && (t in s.home ==> k <= s.home[t])
           case Deepen(k) => k < MAX_IGNORED_THREADS && t in s.home && s.home[t] == k && 0 < |thread.guards| < U64 - 1
           case Swap(k) => k < MAX_IGNORED_THREADS && t !in s.home
           case Store(k) => k < MAX_IGNORED_THREADS && t in s.home && s.home[t] == k && |thread.guards| == 0
           case Overflow => t !in s.home
           case Clear(k) => k < MAX_IGNORED_THREADS && t in s.home && s.home[t] == k && |thread.guards| == 0
           case Underflow => false
         }
  }

  /** A taken slot belongs to the thread whose id it holds, so no id is in two slots. */
  predicate SlotsOk(s: State)
    requires Shape(s)
  {
    forall k :: 0 <= k < MAX_IGNORED_THREADS && s.tids[k] != 0 ==>
      s.tids[k] in s.threads && s.tids[k] in s.home && s.home[s.tids[k]] == k
  }

  predicate FreeOk(s: State)
    requires Shape(s)
  {
    forall k :: 0 <= k < MAX_IGNORED_THREADS && s.tids[k] == 0 ==> s.depths[k] == 0
  }

  predicate Guarded(s: State, t: Tid) {
    t in s.threads && |s.threads[t].guards| > 0
  }

  /** What the tracer has established about the stopped thread. */
  predicate TracerOk(s: State) {
    match s.tracer
    case Resting => true
    case ScanDepth(t, k) => t in s.threads && s.threads[t].pc.Ready? && k < MAX_IGNORED_THREADS
                            && (t in s.home ==> k <= s.home[t])
    case ScanTid(t, k) => t in s.threads && s.threads[t].pc.Ready? && k < MAX_IGNORED_THREADS
                          && (t in s.home ==> k <= s.home[t])
    case Verdict(t, ignored) => t in s.threads && s.threads[t].pc.Ready? && (ignored <==> Guarded(s, t))
  }

  ghost predicate Inv(s: State) {
    && Shape(s) && TracerOk(s)
    && (forall t :: ThreadOk(s, t))
    && SlotsOk(s) && FreeOk(s)
  }

  // ---- each instruction keeps the invariant --------------------------------------------------------

  /** The rest of the table when one thread changed only its own entry and its own slot. */
  lemma OthersKeep(s: State, s': State, t: Tid)
    requires Inv(s) && Shape(s') && t in s.threads && t in s'.threads
    requires s'.threads == s.threads[t := s'.threads[t]]
    requires forall u :: u != t ==> (u in s.home <==> u in s'.home) && (u in s.home ==> s'.home[u] == s.home[u])
    requires forall k :: 0 <= k < MAX_IGNORED_THREADS && s.tids[k] != t && s.tids[k] != 0 ==>
               s'.tids[k] == s.tids[k] && s'.depths[k] == s.depths[k]
    requires forall k :: 0 <= k < MAX_IGNORED_THREADS && (s.tids[k] == t || s.tids[k] == 0) ==>
               s'.tids[k] == 0 || (s'.tids[k] == t && t in s'.home && s'.home[t] == k)
    requires forall k :: 0 <= k < MAX_IGNORED_THREADS && (s.tids[k] == t || s.tids[k] == 0) && s'.tids[k] == 0 ==>
               s'.depths[k] == 0
    requires ThreadOk(s', t)
    requires s'.tracer == s.tracer && !Stopped(s, t)
    ensures Inv(s')
  {
    forall u ensures ThreadOk(s', u) {
      assert ThreadOk(s, u);
    }
  }

  lemma AcquireKeeps(s: State, t: Tid)
    requires Inv(s) && Enabled(s, Acquire(t))
    ensures Inv(Apply(s, Acquire(t)))
  {
    assert ThreadOk(s, t);
    OthersKeep(s, Apply(s, Acquire(t)), t);
  }

  lemma TwoSlots(guards: multiset<nat>, a: nat, b: nat)
    requires a != b
    ensures |guards| >= guards[a] + guards[b]
  {
    var two := multiset{}[a := guards[a]][b := guards[b]];
    assert guards == two + (guards - two);
  }

  lemma ReleaseKeeps(s: State, t: Tid, k: nat)
    requires Inv(s) && Enabled(s, Release(t, k))
    ensures Inv(Apply(s, Release(t, k)))
  {
    assert ThreadOk(s, t);
    var guards := s.threads[t].guards;
    assert guards == (guards - multiset{k}) + multiset{k};
    if k != s.home[t] { TwoSlots(guards, s.home[t], k); }
    OthersKeep(s, Apply(s, Release(t, k)), t);
  }

  lemma AdvanceKeeps(s: State, t: Tid)
    requires Inv(s) && Enabled(s, Advance(t))
    ensures Inv(Apply(s, Advance(t)))
  {
    hide ThreadOk;
    if s.threads[t].pc.Deepen? || s.threads[t].pc.Store? { GuardMade(s, t); } else { Moves(s, t); }
  }

  /** A guard is handed out: the depth counts it. */
  lemma GuardMade(s: State, t: Tid)
    requires Inv(s) && Enabled(s, Advance(t)) && (s.threads[t].pc.Deepen? || s.threads[t].pc.Store?)
    ensures Inv(Apply(s, Advance(t)))
  {
    assert ThreadOk(s, t);
    OthersKeep(s, Apply(s, Advance(t)), t);
  }

  lemma Moves(s: State, t: Tid)
    requires Inv(s) && Enabled(s, Advance(t)) && !(s.threads[t].pc.Deepen? || s.threads[t].pc.Store?)
    ensures Inv(Apply(s, Advance(t)))
  {
    assert ThreadOk(s, t);
    OthersKeep(s, Apply(s, Advance(t)), t);
  }

  /** The tracer only reads the table. */
  lemma TracerKeeps(s: State, tracer: Tracer)
    requires Inv(s) && TracerOk(s.(tracer := tracer))
    ensures Inv(s.(tracer := tracer))
  {
    var s' := s.(tracer := tracer);
    forall u ensures ThreadOk(s', u) {
      assert ThreadOk(s, u);
    }
  }

  lemma ScanKeeps(s: State, step: Step)
    requires Inv(s) && Enabled(s, step) && (step.Stop? || step.Scan? || step.Resume?)
    ensures Inv(Apply(s, step))
  {
    var s' := Apply(s, step);
    assert s' == s.(tracer := s'.tracer);
    match step {
      case Stop(_) =>
      case Scan => assert ThreadOk(s, s.tracer.target);
      case Resume =>
    }
    hide Inv, ThreadOk, Apply;
    TracerKeeps(s, s'.tracer);
  }

  /** Every atomic instruction of every thread and of the tracer keeps the invariant. */
  lemma StepKeeps(s: State, step: Step)
    requires Inv(s) && Enabled(s, step)
    ensures Inv(Apply(s, step))
  {
    hide Inv, Apply, Enabled;
    match step
    case Acquire(t) => AcquireKeeps(s, t);
    case Release(t, k) => ReleaseKeeps(s, t, k);
    case Advance(t) => AdvanceKeeps(s, t);
    case Stop(_) => ScanKeeps(s, step);
    case Scan => ScanKeeps(s, step);
    case Resume => ScanKeeps(s, step);
  }

  // ---- whole runs ------------------------------------------------------------------------------

  ghost predicate Legal(s: State, steps: seq<Step>)
    decreases |steps|
  {
    steps == [] || (Enabled(s, steps[0]) && Legal(Apply(s, steps[0]), steps[1..]))
  }

  function Run(s: State, steps: seq<Step>): State
    requires Legal(s, steps)
    decreases |steps|
  {
    if steps == [] then s else Run(Apply(s, steps[0]), steps[1..])
  }

  lemma InitOk(threads: set<Tid>)
    requires 0 !in threads
    ensures Inv(Init(threads))
  {
  }

  lemma {:induction false} RunKeeps(s: State, steps: seq<Step>)
    requires Inv(s) && Legal(s, steps)
    ensures Inv(Run(s, steps))
    decreases |steps|
  {
    hide Inv, Apply, Enabled;
    if steps != [] {
      StepKeeps(s, steps[0]);
      RunKeeps(Apply(s, steps[0]), steps[1..]);
    }
  }

  ghost predicate Reachable(s: State) {
    exists threads: set<Tid>, steps :: 0 !in threads && Legal(Init(threads), steps) && Run(Init(threads), steps) == s
  }

  lemma ReachableInv(s: State)
    requires Reachable(s)
    ensures Inv(s)
  {
    hide Inv, Apply, Enabled;
    var threads: set<Tid>, steps :| 0 !in threads && Legal(Init(threads), steps) && Run(Init(threads), steps) == s;
    InitOk(threads);
    RunKeeps(Init(threads), steps);
  }

  /** At every instant each nonzero thread id is in at most one slot, and no thread reaches the underflow branch. */
  lemma SlotsAreExclusive(s: State)
    requires Reachable(s)
    ensures Shape(s)
    ensures forall j, k :: 0 <= j < k < MAX_IGNORED_THREADS && s.tids[j] != 0 ==> s.tids[j] != s.tids[k]
    ensures forall t :: t in s.threads ==> !s.threads[t].pc.Underflow?
  {
    ReachableInv(s);
    forall t | t in s.threads ensures !s.threads[t].pc.Underflow? {
      assert ThreadOk(s, t);
    }
  }

  /** The depth of a slot that holds a thread's id is the number of that thread's live guards, all of them on it. */
  lemma DepthCountsGuards(s: State, k: nat)
    requires Reachable(s) && k < MAX_IGNORED_THREADS
    ensures Shape(s)
    ensures s.tids[k] == 0 ==> s.depths[k] == 0
    ensures s.tids[k] != 0 ==> s.tids[k] in s.threads
    ensures s.tids[k] != 0 ==> s.depths[k] == |s.threads[s.tids[k]].guards| == s.threads[s.tids[k]].guards[k]
  {
    ReachableInv(s);
    assert ThreadOk(s, s.tids[k]);
  }

  /** A thread with live guards has a slot. */
  lemma GuardedHasSlot(s: State, t: Tid)
    requires Reachable(s) && Guarded(s, t)
    ensures Shape(s) && t in s.tids && t != 0
  {
    ReachableInv(s);
    assert ThreadOk(s, t);
  }

  /** `is_ignored` for a stopped thread: true exactly when it holds a guard, whatever ran meanwhile. */
  lemma VerdictIsExact(s: State)
    requires Reachable(s) && s.tracer.Verdict?
    ensures s.tracer.target in s.threads
    ensures s.tracer.ignored <==> |s.threads[s.tracer.target].guards| > 0
  {
    ReachableInv(s);
  }

  lemma StopLasts(s: State, step: Step, t: Tid)
    requires Enabled(s, step) && Stopped(s, t) && t in s.threads && !step.Resume?
    ensures var s' := Apply(s, step); Stopped(s', t) && t in s'.threads && s'.threads[t] == s.threads[t]
  {
  }

  /** A stopped thread's guards stay as they are until it resumes, so the verdict is about the stop itself. */
  lemma {:induction false} StoppedKeepsGuards(s: State, steps: seq<Step>, t: Tid)
    requires Legal(s, steps) && Stopped(s, t) && t in s.threads
    requires forall i :: 0 <= i < |steps| ==> !steps[i].Resume?
    ensures var s' := Run(s, steps); Stopped(s', t) && t in s'.threads && s'.threads[t] == s.threads[t]
    decreases |steps|
  {
    hide Enabled, Apply, Stopped;
    if steps != [] {
      StopLasts(s, steps[0], t);
      StoppedKeepsGuards(Apply(s, steps[0]), steps[1..], t);
    }
  }
}
