// Every process that uses an identity file ends: whatever the others do, the number of its own
// file-system calls is bounded by the sizes it was called with.

module IdentityProgress {
  import opened IdentityFiles
  import opened MapSums
  import opened Options

  /** How many calls a process may still make, when its proposal and the largest file it accepts have these sizes. */
  function Rank(pc: Pc, size: nat, maximum: nat, file: nat): nat {
    match pc
    case Look => size + maximum + 11
    case Draw => size + maximum + 10
    case Create(_) => size + maximum + 9
    case Write(_, _, n) => maximum + 8 + (if n <= size then size - n else 0)
    case Validate(_, _) => maximum + 7
    case Link(_, _) => maximum + 6
    case Remove(_, _) => maximum + 5
    case SyncDir(_, _) => maximum + 4
    case Open(_) => maximum + 3
    case Check(_, _) => maximum + 2
    case Read(_, got, _) => 1 + (if |got| <= file then file - |got| else 0)
    case Cleanup(_) => 1
    case Finished(_) => 0
    case Dead => 0
  }

  /** The size of the file that the process is reading. */
  function FileSize(s: State, pc: Pc): nat {
    if pc.Read? && pc.ino in s.files then |s.files[pc.ino]| else 0
  }

  function Left(s: State, p: Pid): nat
    requires p in s.pcs && p in s.calls
  {
    Rank(s.pcs[p], |s.calls[p].proposal|, s.calls[p].maximum, FileSize(s, s.pcs[p]))
  }

  // ---- its own calls -----------------------------------------------------------------------------------

  lemma Moved(s: State, s1: State, p: Pid, pc: Pc)
    requires p in s.pcs && p in s.calls && s1.calls == s.calls
    requires Rank(pc, |s.calls[p].proposal|, s.calls[p].maximum, FileSize(s1, pc)) < Left(s, p)
    ensures var s' := Goto(s1, p, pc); p in s'.pcs && p in s'.calls && Left(s', p) < Left(s, p)
  {
  }

  lemma WriteEnds(s: State, p: Pid, fail: bool, count: nat)
    requires Moving(s, p) && ProcOk(s, p) && s.pcs[p].Write?
    ensures var s' := ApplyAdvance(s, p, fail, count); p in s'.pcs && p in s'.calls && Left(s', p) < Left(s, p)
  {
    hide Goto;
    var proposal, pc := s.calls[p].proposal, s.pcs[p];
    Moved(s, s, p, Cleanup(pc.name));
    if !fail && pc.ino in s.files {
      Moved(s, s, p, Validate(pc.name, pc.ino));
      var next := if count == 0 || pc.count + count > |proposal| then |proposal| else pc.count + count;
      if pc.count < next <= |proposal| {
        var files := s.files[pc.ino := s.files[pc.ino] + proposal[pc.count..next]];
        Moved(s, s.(files := files), p, Write(pc.name, pc.ino, next));
      }
    }
  }

  lemma ReadEnds(s: State, p: Pid, fail: bool, count: nat)
    requires Moving(s, p) && ProcOk(s, p) && Reading(s.pcs[p])
    ensures var s' := ApplyAdvance(s, p, fail, count); p in s'.pcs && p in s'.calls && Left(s', p) < Left(s, p)
  {
    hide Goto;
    var pc := s.pcs[p];
    Moved(s, s, p, Finished(Failed));
    if !fail {
      match pc
      case Open(synced) => if Present(s) { Moved(s, s, p, Check(s.target.value, synced)); }
      case Check(ino, synced) =>
        if ino in s.files && SizeOk(s.calls[p], s.files[ino]) { Moved(s, s, p, Read(ino, [], synced)); }
      case Read(ino, got, synced) =>
        if ino in s.files && |got| <= |s.files[ino]| {
          Moved(s, s, p, Finished(Saw(got, synced)));
          if |got| < |s.files[ino]| {
            var next := if count == 0 || |got| + count > |s.files[ino]| then |s.files[ino]| else |got| + count;
            Moved(s, s, p, Read(ino, got + s.files[ino][|got|..next], synced));
          }
        }
    }
  }

  lemma CreateEnds(s: State, p: Pid, fail: bool, count: nat)
    requires Moving(s, p) && ProcOk(s, p)
    requires s.pcs[p].Look? || s.pcs[p].Draw? || s.pcs[p].Create? || s.pcs[p].Validate? || s.pcs[p].Link?
    ensures var s' := ApplyAdvance(s, p, fail, count); p in s'.pcs && p in s'.calls && Left(s', p) < Left(s, p)
  {
    hide Goto;
    var pc := s.pcs[p];
    match pc
    case Look => Moved(s, s, p, Finished(Failed)); Moved(s, s, p, Open(false)); Moved(s, s, p, Draw);
    case Draw => Moved(s, s, p, Finished(Failed));
    case Create(name) => Moved(s, s, p, Cleanup(name));
    case Validate(name, ino) => Moved(s, s, p, Cleanup(name)); Moved(s, s, p, Link(name, ino));
    case Link(name, _) =>
      Moved(s, s, p, Cleanup(name));
      Moved(s, s, p, Remove(name, false));
      if name in s.temps { Moved(s, s.(target := Some(s.temps[name])), p, Remove(name, true)); }
  }

  lemma RemoveEnds(s: State, p: Pid, fail: bool, count: nat)
    requires Moving(s, p) && ProcOk(s, p) && (s.pcs[p].Remove? || s.pcs[p].SyncDir? || s.pcs[p].Cleanup?)
    ensures var s' := ApplyAdvance(s, p, fail, count); p in s'.pcs && p in s'.calls && Left(s', p) < Left(s, p)
  {
    hide Goto, Removed;
    var pc := s.pcs[p];
    var dropped, flushed := s.(temps := Removed(s.temps, pc.name)), s.(durable := s.durable || Present(s));
    match pc
    case Remove(name, created) => Moved(s, s, p, Cleanup(name)); Moved(s, dropped, p, SyncDir(name, created));
    case SyncDir(name, created) =>
      Moved(s, s, p, Cleanup(name));
      Moved(s, flushed, p, if created then Finished(Saw(s.calls[p].proposal, true)) else Open(true));
    case Cleanup(name) => Moved(s, s, p, Finished(Failed)); Moved(s, dropped, p, Finished(Failed));
  }

  predicate Own(step: Step, p: Pid) {
    (step.Advance? || step.Pick? || step.Make?) && step.pid == p
  }

  /** Each call brings a process nearer to its end. */
  lemma OwnStepEnds(s: State, step: Step, p: Pid)
    requires Inv(s) && Enabled(s, step) && Own(step, p)
    ensures var s' := Apply(s, step);
            p in s.pcs && p in s.calls && p in s'.pcs && p in s'.calls && Left(s', p) < Left(s, p)
  {
    Facts(s, p);
    hide Inv;
    if step.Advance? {
      hide ApplyAdvance, Left, ProcOk;
      match s.pcs[p]
      case Write(_, _, _) => WriteEnds(s, p, step.fail, step.count);
      case Open(_) => ReadEnds(s, p, step.fail, step.count);
      case Check(_, _) => ReadEnds(s, p, step.fail, step.count);
      case Read(_, _, _) => ReadEnds(s, p, step.fail, step.count);
      case Remove(_, _) => RemoveEnds(s, p, step.fail, step.count);
      case SyncDir(_, _) => RemoveEnds(s, p, step.fail, step.count);
      case Cleanup(_) => RemoveEnds(s, p, step.fail, step.count);
      case Look => CreateEnds(s, p, step.fail, step.count);
      case Draw => CreateEnds(s, p, step.fail, step.count);
      case Create(_) => CreateEnds(s, p, step.fail, step.count);
      case Validate(_, _) => CreateEnds(s, p, step.fail, step.count);
      case Link(_, _) => CreateEnds(s, p, step.fail, step.count);
    }
  }

  // ---- the calls of others -------------------------------------------------------------------------------

  lemma OtherStep(s: State, step: Step, p: Pid)
    requires Inv(s) && Enabled(s, step) && !Own(step, p) && p in s.pcs
    ensures var s' := Apply(s, step);
            p in s.calls && p in s'.pcs && p in s'.calls && Left(s', p) <= Left(s, p) && s'.calls[p] == s.calls[p]
  {
    Facts(s, p);
    if step.PowerLoss? {
      hide Inv;
    } else if step.Die? && step.pid == p {
      hide Inv;
    } else {
      StepLeaves(s, step, p, 0);
      if Present(s) { StepKeepsTarget(s, step); }
      hide Inv, Apply, Enabled;
    }
  }

  // ---- whole runs ------------------------------------------------------------------------------------------

  function OwnCalls(steps: seq<Step>, p: Pid): nat {
    if steps == [] then 0 else (if Own(steps[0], p) then 1 else 0) + OwnCalls(steps[1..], p)
  }

  lemma {:induction false} RunEnds(s: State, steps: seq<Step>, p: Pid)
    requires Inv(s) && Legal(s, steps) && p in s.pcs
    ensures p in s.calls && p in Run(s, steps).pcs && p in Run(s, steps).calls
    ensures OwnCalls(steps, p) + Left(Run(s, steps), p) <= Left(s, p)
    decreases |steps|
  {
    Facts(s, p);
    hide Inv, Apply, Enabled, Left, Own;
    if steps != [] {
      StepKeeps(s, steps[0]);
      if Own(steps[0], p) { OwnStepEnds(s, steps[0], p); } else { OtherStep(s, steps[0], p); }
      RunEnds(Apply(s, steps[0]), steps[1..], p);
    }
  }

  /**
   * However its calls are interleaved with others, fail or return short, a process makes at most as many
   * as its proposal and the largest file it accepts have bytes, and eleven; if it makes that many, it has ended.
   */
  lemma EveryProcessEnds(s: State, call: Call, steps: seq<Step>, p: Pid)
    requires Reachable(s, true) && Enabled(s, Begin(p, call)) && Legal(Apply(s, Begin(p, call)), steps)
    ensures var bound := |call.proposal| + call.maximum + 11;
            var s' := Run(Apply(s, Begin(p, call)), steps);
            && OwnCalls(steps, p) <= bound && p in s'.pcs
            && (OwnCalls(steps, p) == bound ==> !Moving(s', p))
  {
    ReachableInv(s);
    StepKeeps(s, Begin(p, call));
    RunEnds(Apply(s, Begin(p, call)), steps, p);
    hide Inv, Run, OwnCalls, Legal;
  }
}
