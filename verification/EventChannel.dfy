// The tracer's bounded event channel: `emit_event` in the tracer process and `drain` in the traced
// process, interleaved at every atomic instruction, pipe write and pipe read.

module EventChannel {
  import opened Arith

  const MAX_QUEUED_EVENTS: nat := 4096
  const MAX_TOTAL_EVENTS: nat := 0x100_0000_0000
  const EVENT_BYTES: nat := 16

  datatype EventKind = Filesystem | Network | Clock | Randomness | Process | Exit

  /** A kernel effect of one thread, before it has a number. */
  datatype Effect = Effect(thread: int, kind: EventKind)
  datatype Event = Event(effect: Effect, sequence: nat)

  /** The next instruction of `emit_event`. */
  datatype Emitter =
    | Resting
    | Load(effect: Effect)                  // load overflowed
    | Count(effect: Effect)                 // fetch_add on queued_events
    | Number(effect: Effect)                // fetch_add on sequence
    | Write(effect: Effect, sequence: nat)  // write to the pipe
    | Uncount                               // fetch_sub on queued_events, in an error branch
    | Flag                                  // store 1 to overflowed, in an error branch

  datatype State = State(
    queued: nat,
    sequence: nat,
    overflowed: bool,
    pipe: seq<Event>,
    emitter: Emitter,
    uncounted: bool,           // drain has read an event and not yet subtracted it
    written: seq<Event>,       // history: every event the pipe accepted
    drained: seq<Event>,       // history: every event that drain read
    requested: seq<Effect>,    // history: the effects emit_event was called for
    lost: bool)                // history: a number was taken and its event not written

  datatype Step =
    | Emit(effect: Effect)
    | Advance(ok: bool)        // `ok` is whether a pipe write succeeds
    | Read
    | Subtract
    | Overflow                 // another party sets the flag

  function Init(): State {
    State(0, 0, false, [], Resting, false, [], [], [], false)
  }

  predicate Enabled(s: State, step: Step) {
    match step
    case Emit(_) => s.emitter.Resting?
    case Advance(_) => !s.emitter.Resting?
    case Read => !s.uncounted && s.pipe != []
    case Subtract => s.uncounted
    case Overflow => true
  }

  /** fetch_sub on an unsigned counter wraps. */
  function FetchSub(n: nat): nat {
    if n == 0 then U64 - 1 else n - 1
  }

  function Apply(s: State, step: Step): State
    requires Enabled(s, step)
  {
    match step
    case Emit(effect) => s.(emitter := Load(effect), requested := s.requested + [effect])
    case Advance(ok) => ApplyAdvance(s, ok)
    case Read => s.(pipe := s.pipe[1..], drained := s.drained + [s.pipe[0]], uncounted := true)
    case Subtract => s.(queued := FetchSub(s.queued), uncounted := false)
    case Overflow => s.(overflowed := true)
  }

  function ApplyAdvance(s: State, ok: bool): State {
    match s.emitter
    case Resting => s
    case Load(effect) => s.(emitter := if s.overflowed then Resting else Count(effect))
    case Count(effect) =>
      s.(queued := (s.queued + 1) % U64, emitter := if s.queued >= MAX_QUEUED_EVENTS then Uncount else Number(effect))
    case Number(effect) =>
      s.(sequence := (s.sequence + 1) % U64,
         emitter := if s.sequence >= MAX_TOTAL_EVENTS then Uncount else Write(effect, s.sequence + 1),
         lost := s.lost || s.sequence >= MAX_TOTAL_EVENTS)
    case Write(effect, n) =>
      if ok then s.(pipe := s.pipe + [Event(effect, n)], written := s.written + [Event(effect, n)], emitter := Resting)
      else s.(emitter := Uncount, lost := true)
    case Uncount => s.(queued := FetchSub(s.queued), emitter := Flag)
    case Flag => s.(overflowed := true, emitter := Resting)
  }

  // ---- the invariant -----------------------------------------------------------------------------

  /** The emitter is giving up on an effect and has not yet set the flag. */
  predicate Failing(e: Emitter) {
    e.Uncount? || e.Flag?
  }

  /** The emitter counted an effect that is not in the pipe. */
  predicate CountedAhead(e: Emitter) {
    e.Number? || e.Write? || e.Uncount?
  }

  /** The effect that is on its way, if any. */
  function OnTheWay(e: Emitter): seq<Effect> {
    match e
    case Load(effect) => [effect]
    case Count(effect) => [effect]
    case Number(effect) => [effect]
    case Write(effect, _) => [effect]
    case _ => []
  }

  function Effects(events: seq<Event>): seq<Effect> {
    seq(|events|, i requires 0 <= i < |events| => events[i].effect)
  }

  predicate Numbered(events: seq<Event>) {
    forall i :: 0 <= i < |events| ==> events[i].sequence == i + 1
  }

  /** `queued_events` counts the pipe, an effect in mid-emit and an event in mid-drain. */
  predicate QueuedOk(s: State) {
    && s.queued == |s.pipe| + (if CountedAhead(s.emitter) then 1 else 0) + (if s.uncounted then 1 else 0)
    && s.queued <= MAX_QUEUED_EVENTS + (if s.emitter.Uncount? then 1 else 0)
  }

  predicate SequenceOk(s: State) {
    && s.sequence == |s.written| + (if s.emitter.Write? then 1 else 0) + (if s.lost then 1 else 0)
    && s.sequence <= MAX_TOTAL_EVENTS + (if s.lost then 1 else 0)
    && (s.emitter.Write? ==> s.emitter.sequence == s.sequence)
    && (s.lost ==> !s.emitter.Number? && !s.emitter.Write? && !s.emitter.Count? && (s.overflowed || Failing(s.emitter)))
  }

  /** Until something sets the flag, every effect was written or is on its way. */
  predicate CompleteOk(s: State) {
    !s.overflowed && !Failing(s.emitter) ==> Effects(s.written) + OnTheWay(s.emitter) == s.requested
  }

  predicate Inv(s: State) {
    QueuedOk(s) && SequenceOk(s) && CompleteOk(s) && Numbered(s.written) && s.written == s.drained + s.pipe
  }

  lemma WriteKeeps(s: State)
    requires Inv(s) && s.emitter.Write?
    ensures Inv(ApplyAdvance(s, true))
  {
    var s' := ApplyAdvance(s, true);
    var event := Event(s.emitter.effect, s.emitter.sequence);
    assert s'.drained + s'.pipe == (s.drained + s.pipe) + [event];
    assert Effects(s'.written) == Effects(s.written) + [event.effect];
  }

  lemma EmitStepKeeps(s: State, ok: bool)
    requires Inv(s) && Enabled(s, Advance(ok))
    ensures Inv(Apply(s, Advance(ok)))
  {
    hide Inv, ApplyAdvance;
    if s.emitter.Write? && ok { WriteKeeps(s); } else { OtherStepKeeps(s, ok); }
  }

  lemma OtherStepKeeps(s: State, ok: bool)
    requires Inv(s) && !(s.emitter.Write? && ok)
    ensures Inv(ApplyAdvance(s, ok))
  {
    hide Effects;
  }

  lemma StepKeeps(s: State, step: Step)
    requires Inv(s) && Enabled(s, step)
    ensures Inv(Apply(s, step))
  {
    if step.Advance? {
      EmitStepKeeps(s, step.ok);
    } else if step.Read? {
      assert s.drained + s.pipe == (s.drained + [s.pipe[0]]) + s.pipe[1..];
    }
  }

  // ---- whole runs ------------------------------------------------------------------------------

  ghost predicate Legal(s: State, steps: seq<Step>)
    decreases |steps|
  {
    steps == [] || (Enabled(s, steps[0]) && Legal(Apply(s, steps[0]), steps[1..]))
  }

  function Run(s: State, steps: seq<Step>): State
    requires Legal(s, steps)
    decreases |steps|
  {
    if steps == [] then s else Run(Apply(s, steps[0]), steps[1..])
  }

  lemma {:induction false} RunKeeps(s: State, steps: seq<Step>)
    requires Inv(s) && Legal(s, steps)
    ensures Inv(Run(s, steps))
    decreases |steps|
  {
    hide Inv, Apply, Enabled;
    if steps != [] {
      StepKeeps(s, steps[0]);
      RunKeeps(Apply(s, steps[0]), steps[1..]);
    }
  }

  ghost predicate Reachable(s: State) {
    exists steps :: Legal(Init(), steps) && Run(Init(), steps) == s
  }

  lemma ReachableInv(s: State)
    requires Reachable(s)
    ensures Inv(s)
  {
    hide Apply, Enabled;
    var steps :| Legal(Init(), steps) && Run(Init(), steps) == s;
    RunKeeps(Init(), steps);
  }

  /** The pipe never holds more than 65,536 bytes and, whenever a write starts, has room for one more event. */
  lemma PipeIsBounded(s: State)
    requires Reachable(s)
    ensures |s.pipe| <= s.queued
    ensures |s.pipe| * EVENT_BYTES <= 65536
    ensures s.emitter.Resting? ==> s.queued <= MAX_QUEUED_EVENTS
    ensures s.emitter.Write? ==> (|s.pipe| + 1) * EVENT_BYTES <= 65536
  {
    ReachableInv(s);
  }

  /** No counter ever wraps. */
  lemma CountersNeverWrap(s: State)
    requires Reachable(s)
    ensures s.uncounted || s.emitter.Uncount? ==> s.queued > 0
    ensures s.queued < U64 - 1 && s.sequence < U64 - 1
  {
    ReachableInv(s);
  }

  /** What `drain` has read is always a gap-free prefix of what was written, numbered 1, 2, 3 and so on. */
  lemma DrainedIsGapFree(s: State)
    requires Reachable(s)
    ensures s.drained <= s.written && Numbered(s.drained) && Numbered(s.written)
    ensures s.written == s.drained + s.pipe
  {
    ReachableInv(s);
  }

  /** A healthy channel at rest lost nothing: the numbers 1..sequence are exactly the effects of all emits, in order. */
  lemma HealthyIsComplete(s: State)
    requires Reachable(s) && !s.overflowed && s.emitter.Resting?
    ensures s.sequence == |s.written| == |s.requested|
    ensures forall i :: 0 <= i < |s.requested| ==> s.written[i] == Event(s.requested[i], i + 1)
    ensures s.pipe == [] ==> Effects(s.drained) == s.requested
  {
    ReachableInv(s);
    assert Effects(s.written) == s.requested;
    forall i | 0 <= i < |s.requested| ensures s.written[i] == Event(s.requested[i], i + 1) {
      assert Effects(s.written)[i] == s.requested[i];
    }
  }

  /** An effect of an emit at rest is missing only if the flag is set: loss never goes unnoticed. */
  lemma LossIsFlagged(s: State)
    requires Reachable(s) && s.emitter.Resting? && Effects(s.written) != s.requested
    ensures s.overflowed
  {
    ReachableInv(s);
  }

  /** Nothing but the channel itself sets the flag in these steps. */
  predicate Undisturbed(steps: seq<Step>) {
    forall i :: 0 <= i < |steps| ==> !steps[i].Overflow?
  }

  /** Every effect is written, on its way or lost; and one is lost before the flag is raised. */
  predicate FlagHasReason(s: State) {
    && |s.written| + |OnTheWay(s.emitter)| <= |s.requested|
    && (s.overflowed || Failing(s.emitter) ==> |s.written| + |OnTheWay(s.emitter)| < |s.requested|)
  }

  lemma StepHasReason(s: State, step: Step)
    requires FlagHasReason(s) && Enabled(s, step) && !step.Overflow?
    ensures FlagHasReason(Apply(s, step))
  {
  }

  lemma {:induction false} RunHasReason(s: State, steps: seq<Step>)
    requires FlagHasReason(s) && Legal(s, steps) && Undisturbed(steps)
    ensures FlagHasReason(Run(s, steps))
    decreases |steps|
  {
    hide Apply, Enabled, FlagHasReason;
    if steps != [] {
      assert !steps[0].Overflow?;
      StepHasReason(s, steps[0]);
      forall i | 0 <= i < |steps[1..]| ensures !steps[1..][i].Overflow? {
        assert steps[1..][i] == steps[i + 1];
      }
      RunHasReason(Apply(s, steps[0]), steps[1..]);
    }
  }

  /** So where nobody else raises it, the flag of a channel at rest is up iff some effect is missing. */
  lemma FlaggedIffLost(steps: seq<Step>)
    requires Legal(Init(), steps) && Undisturbed(steps) && Run(Init(), steps).emitter.Resting?
    ensures var s := Run(Init(), steps); s.overflowed <==> Effects(s.written) != s.requested
  {
    RunHasReason(Init(), steps);
    RunKeeps(Init(), steps);
  }

  /** An effect is turned away iff 4096 events are in the pipe or being drained, and numbered in order otherwise. */
  lemma RoomDecides(s: State, ok: bool)
    requires Reachable(s) && s.emitter.Count?
    ensures var held := |s.pipe| + (if s.uncounted then 1 else 0);
            Apply(s, Advance(ok)).emitter == if held >= 4096 then Uncount else Number(s.emitter.effect)
  {
    ReachableInv(s);
  }

  /** The flag is sticky, so a drain that finds it clear speaks for the whole run before it. */
  lemma {:induction false} FlagIsSticky(s: State, steps: seq<Step>)
    requires Legal(s, steps) && s.overflowed
    ensures Run(s, steps).overflowed
    decreases |steps|
  {
    if steps != [] {
      FlagIsSticky(Apply(s, steps[0]), steps[1..]);
    }
  }
}
