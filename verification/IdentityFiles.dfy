// Create-once identity files: any number of processes that look for a file, create it through a
// temporary file and a hard link, and read it back. One file-system call is one step; a call may
// fail, a process may die at any point, and the machine may lose power.

module IdentityFiles {
  import opened MapSums
  import opened Options

  type Pid = int
  type Ino = int
  type Name = int
  type Bytes = seq<bv8>

  /** What one call proposes to store, and the size limits of the stored file. */
  datatype Call = Call(proposal: Bytes, minimum: nat, maximum: nat)

  datatype Answer = Saw(bytes: Bytes, synced: bool) | Failed

  /** The next file-system call of a process. `synced` is whether it has flushed the directory. */
  datatype Pc =
    | Look                                         // symlink_metadata of the target
    | Draw                                         // choose the temporary name
    | Create(name: Name)                           // open with create_new
    | Write(name: Name, ino: Ino, count: nat)      // write_all, then sync_all
    | Validate(name: Name, ino: Ino)               // validate_open_file of the temporary file
    | Link(name: Name, ino: Ino)                   // hard_link
    | Remove(name: Name, created: bool)            // remove_file of the temporary name
    | SyncDir(name: Name, created: bool)           // sync_directory
    | Cleanup(name: Name)                          // remove_file in the error path
    | Open(synced: bool)                           // File::open of the target
    | Check(ino: Ino, synced: bool)                // validate_open_file of the target
    | Read(ino: Ino, got: Bytes, synced: bool)     // read until the end
    | Finished(answer: Answer)
    | Dead

  datatype State = State(
    uniqueNames: bool,               // assumption: temporary names are never drawn twice
    target: Option<Ino>,             // the directory entry of the target path
    temps: map<Name, Ino>,           // the directory entries of the temporary names
    files: map<Ino, Bytes>,
    durable: bool,                   // the target's entry has reached the disk
    pcs: map<Pid, Pc>,
    calls: map<Pid, Call>,
    used: map<Name, Pid>,            // history: who drew a name
    writer: map<Ino, Pid>,           // history: who created a file
    lost: bool)                      // history: a power loss dropped the target's entry

  datatype Step =
    | Begin(pid: Pid, call: Call)
    | Advance(pid: Pid, fail: bool, count: nat)
    | Pick(pid: Pid, name: Name)
    | Make(pid: Pid, ino: Ino)
    | Die(pid: Pid)
    | PowerLoss(dropped: bool)

  function Init(uniqueNames: bool): State {
    State(uniqueNames, None, map[], map[], false, map[], map[], map[], map[], false)
  }

  predicate Moving(s: State, p: Pid) {
    p in s.pcs && p in s.calls && !s.pcs[p].Finished? && !s.pcs[p].Dead?
  }

  predicate SizeOk(call: Call, bytes: Bytes) {
    call.minimum <= |bytes| <= call.maximum
  }

  predicate Enabled(s: State, step: Step) {
    match step
    case Begin(p, call) => p !in s.pcs && SizeOk(call, call.proposal)
    case Advance(p, fail, _) => Moving(s, p) && (s.pcs[p].Draw? || s.pcs[p].Create? ==> fail)
    case Pick(p, name) => Moving(s, p) && s.pcs[p].Draw? && (s.uniqueNames ==> name !in s.used)
    case Make(p, ino) => Moving(s, p) && s.pcs[p].Create? && ino !in s.files && ino !in s.writer
    case Die(p) => Moving(s, p)
    case PowerLoss(dropped) => dropped ==> !s.durable
  }

  predicate Present(s: State) {
    s.target.Some?
  }

  function Goto(s: State, p: Pid, pc: Pc): State {
    s.(pcs := s.pcs[p := pc])
  }

  function Apply(s: State, step: Step): State
    requires Enabled(s, step)
  {
    match step
    case Begin(p, call) => s.(pcs := s.pcs[p := Look], calls := s.calls[p := call])
    case Advance(p, fail, count) => ApplyAdvance(s, p, fail, count)
    case Pick(p, name) => Goto(s.(used := s.used[name := p]), p, Create(name))
    case Make(p, ino) =>
      var name := s.pcs[p].name;
      if name in s.temps then Goto(s, p, Cleanup(name))
      else Goto(s.(temps := s.temps[name := ino], files := s.files[ino := []], writer := s.writer[ino := p]), p,
                Write(name, ino, 0))
    case Die(p) => Goto(s, p, Dead)
    case PowerLoss(dropped) =>
      s.(pcs := map p | p in s.pcs :: if s.pcs[p].Finished? then s.pcs[p] else Dead,
         target := if dropped then None else s.target, durable := s.durable || (Present(s) && !dropped),
         lost := s.lost || (dropped && Present(s)))
  }

  function ApplyAdvance(s: State, p: Pid, fail: bool, count: nat): State
    requires Moving(s, p)
  {
    var call := s.calls[p];
    match s.pcs[p]
    case Look =>
      if fail then Goto(s, p, Finished(Failed))
      else Goto(s, p, if Present(s) then Open(false) else Draw)
    case Write(name, ino, n) =>
      if fail || ino !in s.files then Goto(s, p, Cleanup(name))
      else if n == |call.proposal| then Goto(s, p, Validate(name, ino))
      else
        var next := if count == 0 || n + count > |call.proposal| then |call.proposal| else n + count;
        if n < next <= |call.proposal| then
          Goto(s.(files := s.files[ino := s.files[ino] + call.proposal[n..next]]), p, Write(name, ino, next))
        else Goto(s, p, Cleanup(name))
    case Validate(name, ino) =>
      if fail || name !in s.temps || s.temps[name] != ino || ino !in s.files || |s.files[ino]| != |call.proposal| then
        Goto(s, p, Cleanup(name))
      else Goto(s, p, Link(name, ino))
    case Link(name, ino) =>
      if fail || name !in s.temps then Goto(s, p, Cleanup(name))
      else if Present(s) then Goto(s, p, Remove(name, false))
      else Goto(s.(target := Some(s.temps[name])), p, Remove(name, true))
    case Remove(name, created) =>
      if fail || name !in s.temps then Goto(s, p, Cleanup(name))
      else Goto(s.(temps := Removed(s.temps, name)), p, SyncDir(name, created))
    case SyncDir(name, created) =>
      if fail then Goto(s, p, Cleanup(name))
      else Goto(s.(durable := s.durable || Present(s)), p,
                if created then Finished(Saw(call.proposal, true)) else Open(true))
    case Cleanup(name) =>
      Goto(if fail then s else s.(temps := Removed(s.temps, name)), p, Finished(Failed))
    case Open(synced) =>
      if fail || !Present(s) then Goto(s, p, Finished(Failed)) else Goto(s, p, Check(s.target.value, synced))
    case Check(ino, synced) =>
      if fail || !Present(s) || s.target.value != ino || ino !in s.files || !SizeOk(call, s.files[ino]) then
           Goto(s, p, Finished(Failed))
      else Goto(s, p, Read(ino, [], synced))
    case Read(ino, got, synced) =>
      if fail || ino !in s.files || |got| > |s.files[ino]| then Goto(s, p, Finished(Failed))
      else if |got| == |s.files[ino]| then Goto(s, p, Finished(if SizeOk(call, got) then Saw(got, synced) else Failed))
      else
        var next := if count == 0 || |got| + count > |s.files[ino]| then |s.files[ino]| else |got| + count;
        Goto(s, p, Read(ino, got + s.files[ino][|got|..next], synced))
    case Draw => Goto(s, p, Finished(Failed))
    case Create(name) => Goto(s, p, Cleanup(name))
    case Finished(_) => s
    case Dead => s
  }

  // ---- the invariant -----------------------------------------------------------------------------

  predicate IsTarget(s: State, ino: Ino) {
    Present(s) && s.target.value == ino
  }

  /** The temporary file of a process: its own name, its own file, not yet visible. */
  predicate OwnFile(s: State, p: Pid, name: Name, ino: Ino) {
    && name in s.used && s.used[name] == p && name in s.temps && s.temps[name] == ino
    && ino in s.files && ino in s.writer && s.writer[ino] == p && !IsTarget(s, ino)
  }

  predicate OwnName(s: State, p: Pid, name: Name) {
    name in s.used && s.used[name] == p
  }

  predicate Stored(s: State, bytes: Bytes) {
    Present(s) && s.target.value in s.files && s.files[s.target.value] == bytes
  }

  predicate ProcOk(s: State, p: Pid) {
    p in s.pcs ==>
      && p in s.calls && SizeOk(s.calls[p], s.calls[p].proposal)
      && var proposal := s.calls[p].proposal;
         match s.pcs[p] {
           case Look => true
           case Draw => true
           case Create(name) => OwnName(s, p, name) && name !in s.temps
           case Write(name, ino, n) => OwnFile(s, p, name, ino) && n <= |proposal| && s.files[ino] == proposal[..n]
           case Validate(name, ino) => OwnFile(s, p, name, ino) && s.files[ino] == proposal
           case Link(name, ino) => OwnFile(s, p, name, ino) && s.files[ino] == proposal
           case Remove(name, created) => OwnName(s, p, name) && Present(s) && (created ==> Stored(s, proposal))
           case SyncDir(name, created) => OwnName(s, p, name) && Present(s) && (created ==> Stored(s, proposal))
           case Cleanup(name) => OwnName(s, p, name)
           case Open(synced) => synced ==> s.durable
           case Check(ino, synced) => IsTarget(s, ino) && (synced ==> s.durable)
           case Read(ino, got, synced) =>
             IsTarget(s, ino) && ino in s.files && got <= s.files[ino] && (synced ==> s.durable)
           case Finished(answer) =>
             answer.Saw? ==> (answer.synced || !s.lost ==> Stored(s, answer.bytes)) && (answer.synced ==> s.durable)
           case Dead => true
         }
  }

  /** The target, once present, is one complete proposal of the process that wrote it. */
  predicate TargetOk(s: State) {
    && (s.durable ==> Present(s))
    && (Present(s) ==>
          var ino := s.target.value;
          && ino in s.files && ino in s.writer && s.writer[ino] in s.calls
          && s.files[ino] == s.calls[s.writer[ino]].proposal)
  }

  predicate NamesOk(s: State) {
    && s.temps.Keys <= s.used.Keys
    && (forall name :: name in s.temps ==> s.temps[name] in s.files)
    && s.files.Keys <= s.writer.Keys
  }

  ghost predicate Inv(s: State) {
    s.uniqueNames && TargetOk(s) && NamesOk(s) && s.calls.Keys <= s.pcs.Keys && forall p :: ProcOk(s, p)
  }

  // ---- each step keeps the invariant ---------------------------------------------------------------

  /** What a step of process `p` leaves alone. */
  ghost predicate OnlyTouches(s: State, s': State, p: Pid) {
    && s'.uniqueNames == s.uniqueNames && s'.lost == s.lost
    && (forall q :: q != p ==> (q in s.pcs <==> q in s'.pcs) && (q in s.pcs ==> s'.pcs[q] == s.pcs[q]))
    && (forall q :: q in s.calls ==> q in s'.calls && s'.calls[q] == s.calls[q])
    && (forall n :: n in s.used ==> n in s'.used && s'.used[n] == s.used[n])
    && (forall i :: i in s.writer ==> i in s'.writer && s'.writer[i] == s.writer[i])
    && (forall n ::
          n in s.used && s.used[n] != p ==>
            (n in s.temps <==> n in s'.temps) && (n in s.temps ==> s'.temps[n] == s.temps[n]))
    && (forall i :: i in s.files ==> i in s'.files)
    && (forall i :: i in s.files && i in s.writer && (s.writer[i] != p || IsTarget(s, i)) ==> s'.files[i] == s.files[i])
    && (Present(s) ==> s'.target == s.target && (s.durable ==> s'.durable))
    && (Present(s') && !Present(s) ==> s'.target.value in s.writer && s.writer[s'.target.value] == p)
  }

  lemma OthersKeep(s: State, s': State, p: Pid)
    requires Inv(s) && OnlyTouches(s, s', p) && TargetOk(s') && NamesOk(s') && s'.calls.Keys <= s'.pcs.Keys
             && ProcOk(s', p)
    ensures Inv(s')
  {
    forall q ensures ProcOk(s', q) {
      if q != p {
        assert ProcOk(s, q);
        OtherKeeps(s, s', p, q);
      }
    }
  }

  lemma OtherKeeps(s: State, s': State, p: Pid, q: Pid)
    requires TargetOk(s) && ProcOk(s, q) && p != q && OnlyTouches(s, s', p)
    ensures ProcOk(s', q)
  {
  }

  lemma Facts(s: State, p: Pid)
    requires Inv(s)
    ensures s.uniqueNames && TargetOk(s) && NamesOk(s) && s.calls.Keys <= s.pcs.Keys && ProcOk(s, p)
  {
  }

  /** A step that only moves the process on. */
  lemma GotoKeeps(s: State, p: Pid, pc: Pc)
    requires Inv(s) && Moving(s, p) && ProcOk(Goto(s, p, pc), p)
    ensures Inv(Goto(s, p, pc))
  {
    var s' := Goto(s, p, pc);
    Facts(s, p);
    assert OnlyTouches(s, s', p);
    hide Inv, ProcOk, OnlyTouches;
    OthersKeep(s, s', p);
  }

  lemma LookKeeps(s: State, p: Pid, fail: bool, count: nat)
    requires Inv(s) && Moving(s, p) && (s.pcs[p].Look? || s.pcs[p].Draw? || s.pcs[p].Create?)
    ensures Inv(ApplyAdvance(s, p, fail, count))
  {
    hide Inv;
    Facts(s, p);
    GotoKeeps(s, p, ApplyAdvance(s, p, fail, count).pcs[p]);
  }

  lemma ValidateKeeps(s: State, p: Pid, fail: bool, count: nat)
    requires Inv(s) && Moving(s, p) && s.pcs[p].Validate?
    ensures Inv(ApplyAdvance(s, p, fail, count))
  {
    hide Inv;
    Facts(s, p);
    GotoKeeps(s, p, ApplyAdvance(s, p, fail, count).pcs[p]);
  }

  lemma OpenKeeps(s: State, p: Pid, fail: bool, count: nat)
    requires Inv(s) && Moving(s, p) && s.pcs[p].Open?
    ensures Inv(ApplyAdvance(s, p, fail, count))
  {
    hide Inv;
    Facts(s, p);
    GotoKeeps(s, p, ApplyAdvance(s, p, fail, count).pcs[p]);
  }

  lemma CheckKeeps(s: State, p: Pid, fail: bool, count: nat)
    requires Inv(s) && Moving(s, p) && s.pcs[p].Check?
    ensures Inv(ApplyAdvance(s, p, fail, count))
  {
    hide Inv;
    Facts(s, p);
    GotoKeeps(s, p, ApplyAdvance(s, p, fail, count).pcs[p]);
  }

  lemma ReadKeeps(s: State, p: Pid, fail: bool, count: nat)
    requires Inv(s) && Moving(s, p) && s.pcs[p].Read?
    ensures Inv(ApplyAdvance(s, p, fail, count))
  {
    hide Inv;
    Facts(s, p);
    GotoKeeps(s, p, ApplyAdvance(s, p, fail, count).pcs[p]);
  }

  /** Part of the proposal reaches the process's own temporary file. */
  lemma ChunkKeeps(s: State, p: Pid, next: nat)
    requires Inv(s) && Moving(s, p) && s.pcs[p].Write?
    requires s.pcs[p].ino in s.files && s.pcs[p].count < next <= |s.calls[p].proposal|
    ensures var ino := s.pcs[p].ino;
            Inv(Goto(s.(files := s.files[ino := s.files[ino] + s.calls[p].proposal[s.pcs[p].count..next]]), p,
                     Write(s.pcs[p].name, ino, next)))
  {
    var ino, n, proposal := s.pcs[p].ino, s.pcs[p].count, s.calls[p].proposal;
    Facts(s, p);
    var s' := Goto(s.(files := s.files[ino := s.files[ino] + proposal[n..next]]), p, Write(s.pcs[p].name, ino, next));
    assert proposal[..n] + proposal[n..next] == proposal[..next];
    hide Inv;
    OthersKeep(s, s', p);
  }

  lemma WriteKeeps(s: State, p: Pid, fail: bool, count: nat)
    requires Inv(s) && Moving(s, p) && s.pcs[p].Write?
    ensures Inv(ApplyAdvance(s, p, fail, count))
  {
    hide Inv, OnlyTouches;
    Facts(s, p);
    var n, proposal := s.pcs[p].count, s.calls[p].proposal;
    if fail || n == |proposal| {
      assert n == |proposal| ==> proposal[..n] == proposal;
      GotoKeeps(s, p, ApplyAdvance(s, p, fail, count).pcs[p]);
    } else {
      ChunkKeeps(s, p, if count == 0 || n + count > |proposal| then |proposal| else n + count);
    }
  }

  /** A process drops its own temporary name. */
  lemma UnlinkKeeps(s: State, p: Pid, name: Name, pc: Pc)
    requires Inv(s) && Moving(s, p) && OwnName(s, p, name)
             && ProcOk(Goto(s.(temps := Removed(s.temps, name)), p, pc), p)
    ensures Inv(Goto(s.(temps := Removed(s.temps, name)), p, pc))
  {
    hide ProcOk, Removed;
    RemovedEverywhere(s.temps, name);
    var s' := Goto(s.(temps := Removed(s.temps, name)), p, pc);
    Facts(s, p);
    assert OnlyTouches(s, s', p);
    hide Inv, OnlyTouches;
    OthersKeep(s, s', p);
  }

  lemma RemoveKeeps(s: State, p: Pid, fail: bool, count: nat)
    requires Inv(s) && Moving(s, p) && (s.pcs[p].Remove? || s.pcs[p].Cleanup?)
    ensures Inv(ApplyAdvance(s, p, fail, count))
  {
    hide Inv, Removed;
    Facts(s, p);
    var name := s.pcs[p].name;
    if s.pcs[p].Remove? && (fail || name !in s.temps) {
      GotoKeeps(s, p, Cleanup(name));
    } else if fail {
      GotoKeeps(s, p, Finished(Failed));
    } else {
      UnlinkKeeps(s, p, name, ApplyAdvance(s, p, fail, count).pcs[p]);
    }
  }

  lemma LinkKeeps(s: State, p: Pid, fail: bool, count: nat)
    requires Inv(s) && Moving(s, p) && s.pcs[p].Link?
    ensures Inv(ApplyAdvance(s, p, fail, count))
  {
    hide Inv;
    Facts(s, p);
    OthersKeep(s, ApplyAdvance(s, p, fail, count), p);
  }

  lemma SyncDirKeeps(s: State, p: Pid, fail: bool, count: nat)
    requires Inv(s) && Moving(s, p) && s.pcs[p].SyncDir?
    ensures Inv(ApplyAdvance(s, p, fail, count))
  {
    hide Inv;
    Facts(s, p);
    OthersKeep(s, ApplyAdvance(s, p, fail, count), p);
  }

  lemma MakeKeeps(s: State, p: Pid, ino: Ino)
    requires Inv(s) && Enabled(s, Make(p, ino))
    ensures Inv(Apply(s, Make(p, ino)))
  {
    hide Inv;
    Facts(s, p);
    OthersKeep(s, Apply(s, Make(p, ino)), p);
  }

  lemma PickKeeps(s: State, p: Pid, name: Name)
    requires Inv(s) && Enabled(s, Pick(p, name))
    ensures Inv(Apply(s, Pick(p, name)))
  {
    hide Inv;
    Facts(s, p);
    OthersKeep(s, Apply(s, Pick(p, name)), p);
  }

  lemma BeginKeeps(s: State, p: Pid, call: Call)
    requires Inv(s) && Enabled(s, Begin(p, call))
    ensures Inv(Apply(s, Begin(p, call)))
  {
    hide Inv;
    Facts(s, p);
    OthersKeep(s, Apply(s, Begin(p, call)), p);
  }

  /** Everything in memory is gone; the target's entry survives if it had reached the disk. */
  lemma PowerLossKeeps(s: State, dropped: bool)
    requires Inv(s) && Enabled(s, PowerLoss(dropped))
    ensures Inv(Apply(s, PowerLoss(dropped)))
  {
    var s' := Apply(s, PowerLoss(dropped));
    forall p ensures ProcOk(s', p) {
      assert ProcOk(s, p);
    }
  }

  lemma AdvanceKeeps(s: State, p: Pid, fail: bool, count: nat)
    requires Inv(s) && Enabled(s, Advance(p, fail, count))
    ensures Inv(ApplyAdvance(s, p, fail, count))
  {
    hide Inv, ApplyAdvance;
    match s.pcs[p]
    case Look => LookKeeps(s, p, fail, count);
    case Draw => LookKeeps(s, p, fail, count);
    case Create(_) => LookKeeps(s, p, fail, count);
    case Write(_, _, _) => WriteKeeps(s, p, fail, count);
    case Validate(_, _) => ValidateKeeps(s, p, fail, count);
    case Link(_, _) => LinkKeeps(s, p, fail, count);
    case Remove(_, _) => RemoveKeeps(s, p, fail, count);
    case SyncDir(_, _) => SyncDirKeeps(s, p, fail, count);
    case Cleanup(_) => RemoveKeeps(s, p, fail, count);
    case Open(_) => OpenKeeps(s, p, fail, count);
    case Check(_, _) => CheckKeeps(s, p, fail, count);
    case Read(_, _, _) => ReadKeeps(s, p, fail, count);
  }

  lemma StepKeeps(s: State, step: Step)
    requires Inv(s) && Enabled(s, step)
    ensures Inv(Apply(s, step))
  {
    hide Inv, ApplyAdvance;
    match step
    case Begin(p, call) => BeginKeeps(s, p, call);
    case Advance(p, fail, count) => AdvanceKeeps(s, p, fail, count);
    case Pick(p, name) => PickKeeps(s, p, name);
    case Make(p, ino) => MakeKeeps(s, p, ino);
    case Die(p) => Facts(s, p); GotoKeeps(s, p, Dead);
    case PowerLoss(dropped) => PowerLossKeeps(s, dropped);
  }

  // ---- whole runs --------------------------------------------------------------------------------

  ghost predicate Legal(s: State, steps: seq<Step>)
    decreases |steps|
  {
    steps == [] || (Enabled(s, steps[0]) && Legal(Apply(s, steps[0]), steps[1..]))
  }

  function Run(s: State, steps: seq<Step>): State
    requires Legal(s, steps)
    decreases |steps|
  {
    if steps == [] then s else Run(Apply(s, steps[0]), steps[1..])
  }

  lemma {:induction false} RunKeeps(s: State, steps: seq<Step>)
    requires Inv(s) && Legal(s, steps)
    ensures Inv(Run(s, steps))
    decreases |steps|
  {
    hide Inv, Apply, Enabled;
    if steps != [] {
      StepKeeps(s, steps[0]);
      RunKeeps(Apply(s, steps[0]), steps[1..]);
    }
  }

  /** Reachable with temporary names that are never drawn twice, or with no such promise. */
  ghost predicate Reachable(s: State, uniqueNames: bool) {
    exists steps :: Legal(Init(uniqueNames), steps) && Run(Init(uniqueNames), steps) == s
  }

  lemma ReachableInv(s: State)
    requires Reachable(s, true)
    ensures Inv(s)
  {
    hide Apply, Enabled;
    var steps :| Legal(Init(true), steps) && Run(Init(true), steps) == s;
    assert Inv(Init(true));
    RunKeeps(Init(true), steps);
  }

  predicate Answered(s: State, p: Pid) {
    p in s.pcs && s.pcs[p].Finished? && s.pcs[p].answer.Saw?
  }

  function AnswerOf(s: State, p: Pid): Bytes
    requires Answered(s, p)
  {
    s.pcs[p].answer.bytes
  }

  predicate Synced(s: State, p: Pid)
    requires Answered(s, p)
  {
    s.pcs[p].answer.synced
  }

  /**
   * Agreement: all processes that succeed saw the same bytes, which are one process's whole
   * proposal and are what the target holds. Across a power loss that dropped the target's entry it
   * still holds between the processes that had flushed the directory.
   */
  lemma Agreement(s: State, p: Pid, q: Pid)
    requires Reachable(s, true) && Answered(s, p) && Answered(s, q)
    requires !s.lost || (Synced(s, p) && Synced(s, q))
    ensures AnswerOf(s, p) == AnswerOf(s, q)
    ensures Stored(s, AnswerOf(s, p))
    ensures s.target.value in s.writer && s.writer[s.target.value] in s.calls
    ensures AnswerOf(s, p) == s.calls[s.writer[s.target.value]].proposal
  {
    ReachableInv(s);
    assert ProcOk(s, p) && ProcOk(s, q);
  }

  /** Whoever looks at the target finds a file that is complete. */
  lemma TargetIsComplete(s: State)
    requires Reachable(s, true) && Present(s)
    ensures s.target.value in s.writer && s.writer[s.target.value] in s.calls
    ensures Stored(s, s.calls[s.writer[s.target.value]].proposal)
    ensures SizeOk(s.calls[s.writer[s.target.value]], s.calls[s.writer[s.target.value]].proposal)
  {
    ReachableInv(s);
    assert ProcOk(s, s.writer[s.target.value]);
  }

  /** The target and its content are the same, and still on disk if they were. */
  predicate SameTarget(s: State, s': State)
    requires Present(s)
  {
    && s'.target == s.target && (s.durable ==> s'.durable)
    && s.target.value in s.files && s.target.value in s'.files && s'.files[s.target.value] == s.files[s.target.value]
  }

  lemma WriteKeepsTarget(s: State, p: Pid, fail: bool, count: nat)
    requires Inv(s) && Moving(s, p) && s.pcs[p].Write? && Present(s)
    ensures SameTarget(s, ApplyAdvance(s, p, fail, count))
  {
    Facts(s, p);
    hide Inv;
  }

  predicate Reading(pc: Pc) {
    pc.Open? || pc.Check? || pc.Read?
  }

  lemma ReadingKeepsTarget(s: State, p: Pid, fail: bool, count: nat)
    requires TargetOk(s) && Moving(s, p) && Reading(s.pcs[p]) && Present(s)
    ensures SameTarget(s, ApplyAdvance(s, p, fail, count))
  {
  }

  lemma LinkingKeepsTarget(s: State, p: Pid, fail: bool, count: nat)
    requires TargetOk(s) && Moving(s, p) && (s.pcs[p].Validate? || s.pcs[p].Link?) && Present(s)
    ensures SameTarget(s, ApplyAdvance(s, p, fail, count))
  {
  }

  lemma CreatingKeepsTarget(s: State, p: Pid, fail: bool, count: nat)
    requires TargetOk(s) && Moving(s, p) && !Reading(s.pcs[p]) && !s.pcs[p].Write? && Present(s)
    requires !s.pcs[p].Validate? && !s.pcs[p].Link?
    ensures SameTarget(s, ApplyAdvance(s, p, fail, count))
  {
    hide Removed;
  }

  lemma StepKeepsTarget(s: State, step: Step)
    requires Inv(s) && Enabled(s, step) && Present(s)
    requires step.PowerLoss? ==> !step.dropped
    ensures SameTarget(s, Apply(s, step))
  {
    if step.Advance? {
      hide ApplyAdvance, ProcOk, SameTarget;
      if s.pcs[step.pid].Write? { WriteKeepsTarget(s, step.pid, step.fail, step.count); }
      else if Reading(s.pcs[step.pid]) { ReadingKeepsTarget(s, step.pid, step.fail, step.count); }
      else if s.pcs[step.pid].Validate? || s.pcs[step.pid].Link? {
        LinkingKeepsTarget(s, step.pid, step.fail, step.count);
      }
      else { CreatingKeepsTarget(s, step.pid, step.fail, step.count); }
    }
  }

  predicate KeepsEntry(step: Step) {
    step.PowerLoss? ==> !step.dropped
  }

  /** The target is immutable: no step of any later run replaces the file or changes its content. */
  lemma {:induction false} TargetIsImmutable(s: State, steps: seq<Step>)
    requires Inv(s) && Legal(s, steps) && Present(s)
    requires s.durable || forall i :: 0 <= i < |steps| ==> KeepsEntry(steps[i])
    ensures SameTarget(s, Run(s, steps))
    decreases |steps|
  {
    assert TargetOk(s);
    if steps != [] {
      assert KeepsEntry(steps[0]);
      StepKeepsTarget(s, steps[0]);
      StepKeeps(s, steps[0]);
      hide Inv, Apply;
      forall i | 0 <= i < |steps[1..]| && !s.durable ensures KeepsEntry(steps[1..][i]) {
        assert KeepsEntry(steps[i + 1]);
      }
      TargetIsImmutable(Apply(s, steps[0]), steps[1..]);
    }
  }

  // ---- a process for which nothing fails -------------------------------------------------------------

  /** No file-system call of `p` fails in this step, `p` does not die in it, and the power stays on. */
  predicate Smooth(step: Step, p: Pid) {
    match step
    case Advance(q, fail, _) => q == p ==> !fail
    case Die(q) => q != p
    case PowerLoss(_) => false
    case _ => true
  }

  predicate OutOfBounds(s: State, p: Pid) {
    Present(s) && s.target.value in s.files && p in s.calls && !SizeOk(s.calls[p], s.files[s.target.value])
  }

  /** It is on its way to an answer, unless the stored file does not have a size that it accepts. */
  predicate OnItsWay(s: State, p: Pid) {
    p in s.pcs ==>
      match s.pcs[p]
      case Cleanup(_) => false
      case Dead => false
      case Remove(name, _) => name in s.temps
      case Open(_) => Present(s)
      case Finished(answer) => answer.Saw? || OutOfBounds(s, p)
      case _ => true
  }

  lemma OwnWrite(s: State, p: Pid, count: nat)
    requires Inv(s) && Moving(s, p) && OnItsWay(s, p) && s.pcs[p].Write?
    ensures OnItsWay(ApplyAdvance(s, p, false, count), p)
  {
    Facts(s, p);
    hide Inv;
  }

  lemma OwnReading(s: State, p: Pid, count: nat)
    requires Inv(s) && Moving(s, p) && OnItsWay(s, p) && Reading(s.pcs[p])
    ensures OnItsWay(ApplyAdvance(s, p, false, count), p)
  {
    Facts(s, p);
    hide Inv;
    if s.pcs[p].Read? && |s.pcs[p].got| == |s.files[s.pcs[p].ino]| {
      assert s.pcs[p].got == s.files[s.pcs[p].ino];
    }
  }

  lemma OwnCreating(s: State, p: Pid, count: nat)
    requires Inv(s) && Moving(s, p) && OnItsWay(s, p) && !s.pcs[p].Write? && !Reading(s.pcs[p])
    requires !s.pcs[p].Draw? && !s.pcs[p].Create?
    ensures OnItsWay(ApplyAdvance(s, p, false, count), p)
  {
    Facts(s, p);
    hide Inv, Removed;
  }

  /** What a step of `q` leaves alone of another process `p`, which has drawn the name `n`. */
  predicate LeavesAlone(s: State, s': State, q: Pid, p: Pid, n: Name) {
    && (p in s.calls ==> p in s'.calls && s'.calls[p] == s.calls[p])
    && (p != q ==> (p in s.pcs <==> p in s'.pcs) && (p in s.pcs ==> s'.pcs[p] == s.pcs[p]))
    && (n in s.used && s.used[n] != q && n in s.temps ==> n in s'.temps)
  }

  /** The process has met a failed call and will not answer. */
  predicate GivesUp(pc: Pc) {
    pc.Cleanup? || pc == Finished(Failed) || pc.Dead?
  }

  /** The temporary file that a process may have at this point. */
  predicate MayHave(pc: Pc, n: Name) {
    match pc
    case Write(name, _, _) => name == n
    case Validate(name, _) => name == n
    case Link(name, _) => name == n
    case Remove(name, _) => name == n
    case Cleanup(name) => name == n
    case Finished(answer) => answer.Failed?
    case Dead => true
    case _ => false
  }

  /** What a call of `q` does to the processes and to the temporary name `n`. */
  predicate Goes(s: State, s': State, q: Pid, fail: bool, n: Name)
    requires q in s.pcs
  {
    && s'.used == s.used && s'.calls == s.calls && q in s'.pcs && s'.pcs == s.pcs[q := s'.pcs[q]]
    && (n in s'.temps ==> n in s.temps)
    && (n in s.temps && n !in s'.temps ==> (s.pcs[q].Remove? || s.pcs[q].Cleanup?) && s.pcs[q].name == n)
    && (fail || GivesUp(s.pcs[q]) ==> GivesUp(s'.pcs[q]))
    && (n in s'.temps && MayHave(s.pcs[q], n) ==> MayHave(s'.pcs[q], n))
  }

  /** A call that leaves the temporary names alone. */
  lemma Going(s: State, s1: State, q: Pid, pc: Pc, fail: bool, n: Name)
    requires q in s.pcs && s1.used == s.used && s1.calls == s.calls && s1.pcs == s.pcs && s1.temps == s.temps
    requires (fail || GivesUp(s.pcs[q]) ==> GivesUp(pc)) && (MayHave(s.pcs[q], n) ==> MayHave(pc, n))
    ensures Goes(s, Goto(s1, q, pc), q, fail, n)
  {
  }

  lemma WriteGoes(s: State, q: Pid, fail: bool, count: nat, n: Name)
    requires Moving(s, q) && s.pcs[q].Write?
    ensures Goes(s, ApplyAdvance(s, q, fail, count), q, fail, n)
  {
    hide Goto, Goes;
    var proposal, pc := s.calls[q].proposal, s.pcs[q];
    Going(s, s, q, Cleanup(pc.name), fail, n);
    if !fail && pc.ino in s.files {
      Going(s, s, q, Validate(pc.name, pc.ino), fail, n);
      var next := if count == 0 || pc.count + count > |proposal| then |proposal| else pc.count + count;
      if pc.count < next <= |proposal| {
        var files := s.files[pc.ino := s.files[pc.ino] + proposal[pc.count..next]];
        Going(s, s.(files := files), q, Write(pc.name, pc.ino, next), fail, n);
      }
    }
  }

  lemma OpenGoes(s: State, q: Pid, fail: bool, count: nat, n: Name)
    requires Moving(s, q) && (s.pcs[q].Open? || s.pcs[q].Look?)
    ensures Goes(s, ApplyAdvance(s, q, fail, count), q, fail, n)
  {
    hide Goto, Goes;
    Going(s, s, q, Finished(Failed), fail, n);
    if !fail {
      Going(s, s, q, Open(false), fail, n);
      Going(s, s, q, Draw, fail, n);
      if Present(s) && s.pcs[q].Open? { Going(s, s, q, Check(s.target.value, s.pcs[q].synced), fail, n); }
    }
  }

  lemma NamingGoes(s: State, q: Pid, fail: bool, count: nat, n: Name)
    requires Moving(s, q) && (s.pcs[q].Draw? || s.pcs[q].Create?)
    ensures Goes(s, ApplyAdvance(s, q, fail, count), q, fail, n)
  {
    hide Goto, Goes;
    if s.pcs[q].Draw? {
      Going(s, s, q, Finished(Failed), fail, n);
    } else {
      Going(s, s, q, Cleanup(s.pcs[q].name), fail, n);
    }
  }

  lemma CheckGoes(s: State, q: Pid, fail: bool, count: nat, n: Name)
    requires Moving(s, q) && s.pcs[q].Check?
    ensures Goes(s, ApplyAdvance(s, q, fail, count), q, fail, n)
  {
    hide Goto, Goes;
    Going(s, s, q, Finished(Failed), fail, n);
    if !fail { Going(s, s, q, Read(s.pcs[q].ino, [], s.pcs[q].synced), fail, n); }
  }

  lemma ReadGoes(s: State, q: Pid, fail: bool, count: nat, n: Name)
    requires Moving(s, q) && s.pcs[q].Read?
    ensures Goes(s, ApplyAdvance(s, q, fail, count), q, fail, n)
  {
    hide Goto, Goes;
    var pc := s.pcs[q];
    Going(s, s, q, Finished(Failed), fail, n);
    if !fail && pc.ino in s.files && |pc.got| <= |s.files[pc.ino]| {
      var file := s.files[pc.ino];
      Going(s, s, q, Finished(Saw(pc.got, pc.synced)), fail, n);
      if |pc.got| < |file| {
        var next := if count == 0 || |pc.got| + count > |file| then |file| else |pc.got| + count;
        Going(s, s, q, Read(pc.ino, pc.got + file[|pc.got|..next], pc.synced), fail, n);
      }
    }
  }

  lemma ValidateGoes(s: State, q: Pid, fail: bool, count: nat, n: Name)
    requires Moving(s, q) && (s.pcs[q].Validate? || s.pcs[q].SyncDir?)
    ensures Goes(s, ApplyAdvance(s, q, fail, count), q, fail, n)
  {
    hide Goto, Goes;
    var pc, flushed := s.pcs[q], s.(durable := s.durable || Present(s));
    Going(s, s, q, Cleanup(pc.name), fail, n);
    if !fail {
      if pc.Validate? {
        Going(s, s, q, Link(pc.name, pc.ino), fail, n);
      } else {
        Going(s, flushed, q, if pc.created then Finished(Saw(s.calls[q].proposal, true)) else Open(true), fail, n);
      }
    }
  }

  lemma LinkGoes(s: State, q: Pid, fail: bool, count: nat, n: Name)
    requires Moving(s, q) && s.pcs[q].Link?
    ensures Goes(s, ApplyAdvance(s, q, fail, count), q, fail, n)
  {
    hide Goto, Goes;
    var name := s.pcs[q].name;
    Going(s, s, q, Cleanup(name), fail, n);
    if !fail && name in s.temps {
      Going(s, s, q, Remove(name, false), fail, n);
      Going(s, s.(target := Some(s.temps[name])), q, Remove(name, true), fail, n);
    }
  }

  /** A call that takes the process's own temporary name away. */
  lemma Dropping(s: State, q: Pid, pc: Pc, fail: bool, n: Name)
    requires q in s.pcs && (s.pcs[q].Remove? || s.pcs[q].Cleanup?)
    requires fail || GivesUp(s.pcs[q]) ==> GivesUp(pc)
    ensures Goes(s, Goto(s.(temps := Removed(s.temps, s.pcs[q].name)), q, pc), q, fail, n)
  {
    hide Removed;
    RemovedEverywhere(s.temps, s.pcs[q].name);
  }

  lemma RemoveGoes(s: State, q: Pid, fail: bool, count: nat, n: Name)
    requires Moving(s, q) && (s.pcs[q].Remove? || s.pcs[q].Cleanup?)
    ensures Goes(s, ApplyAdvance(s, q, fail, count), q, fail, n)
  {
    hide Goto, Goes, Removed;
    var pc := s.pcs[q];
    if pc.Remove? {
      Going(s, s, q, Cleanup(pc.name), fail, n);
      if !fail { Dropping(s, q, SyncDir(pc.name, pc.created), fail, n); }
    } else {
      Going(s, s, q, Finished(Failed), fail, n);
      Dropping(s, q, Finished(Failed), fail, n);
    }
  }

  lemma AdvanceGoes(s: State, q: Pid, fail: bool, count: nat, n: Name)
    requires Moving(s, q)
    ensures Goes(s, ApplyAdvance(s, q, fail, count), q, fail, n)
  {
    hide ApplyAdvance, Goes;
    match s.pcs[q]
    case Write(_, _, _) => WriteGoes(s, q, fail, count, n);
    case Check(_, _) => CheckGoes(s, q, fail, count, n);
    case Read(_, _, _) => ReadGoes(s, q, fail, count, n);
    case Validate(_, _) => ValidateGoes(s, q, fail, count, n);
    case SyncDir(_, _) => ValidateGoes(s, q, fail, count, n);
    case Link(_, _) => LinkGoes(s, q, fail, count, n);
    case Remove(_, _) => RemoveGoes(s, q, fail, count, n);
    case Cleanup(_) => RemoveGoes(s, q, fail, count, n);
    case Draw => NamingGoes(s, q, fail, count, n);
    case Create(_) => NamingGoes(s, q, fail, count, n);
    case _ => OpenGoes(s, q, fail, count, n);
  }

  lemma GoingLeaves(s: State, q: Pid, fail: bool, count: nat, p: Pid, n: Name)
    requires Moving(s, q) && ProcOk(s, q)
    ensures LeavesAlone(s, ApplyAdvance(s, q, fail, count), q, p, n)
  {
    AdvanceGoes(s, q, fail, count, n);
    hide ApplyAdvance, GivesUp, MayHave;
  }

  lemma StepLeaves(s: State, step: Step, p: Pid, n: Name)
    requires Inv(s) && Enabled(s, step) && !step.PowerLoss?
    ensures LeavesAlone(s, Apply(s, step), step.pid, p, n)
  {
    Facts(s, step.pid);
    hide Inv;
    if step.Advance? {
      hide ApplyAdvance, LeavesAlone, ProcOk;
      GoingLeaves(s, step.pid, step.fail, step.count, p, n);
    }
  }

  lemma StillOnItsWay(s: State, s': State, p: Pid, q: Pid, n: Name)
    requires OnItsWay(s, p) && ProcOk(s, p) && LeavesAlone(s, s', q, p, n) && p != q
             && (Present(s) ==> SameTarget(s, s'))
    requires p in s.pcs && s.pcs[p].Remove? ==> n == s.pcs[p].name
    ensures OnItsWay(s', p)
  {
  }

  lemma StepOnItsWay(s: State, step: Step, p: Pid)
    requires Inv(s) && Enabled(s, step) && OnItsWay(s, p) && Smooth(step, p)
    ensures OnItsWay(Apply(s, step), p)
  {
    Facts(s, p);
    if step.pid != p {
      if Present(s) {
        StepKeepsTarget(s, step);
      }
      var n := if p in s.pcs && s.pcs[p].Remove? then s.pcs[p].name else 0;
      StepLeaves(s, step, p, n);
      hide Inv, Apply, ProcOk, SameTarget, LeavesAlone;
      StillOnItsWay(s, Apply(s, step), p, step.pid, n);
    } else if step.Advance? {
      hide ApplyAdvance;
      if s.pcs[p].Write? { OwnWrite(s, p, step.count); }
      else if Reading(s.pcs[p]) { OwnReading(s, p, step.count); }
      else { OwnCreating(s, p, step.count); }
    }
  }

  lemma {:induction false} RunOnItsWay(s: State, steps: seq<Step>, p: Pid)
    requires Inv(s) && Legal(s, steps) && OnItsWay(s, p) && forall i :: 0 <= i < |steps| ==> Smooth(steps[i], p)
    ensures OnItsWay(Run(s, steps), p)
    decreases |steps|
  {
    if steps != [] {
      assert Smooth(steps[0], p);
      StepOnItsWay(s, steps[0], p);
      StepKeeps(s, steps[0]);
      hide Inv, Apply, OnItsWay, Smooth;
      forall i | 0 <= i < |steps[1..]| ensures Smooth(steps[1..][i], p) {
        assert Smooth(steps[i + 1], p);
      }
      RunOnItsWay(Apply(s, steps[0]), steps[1..], p);
    }
  }

  /**
   * A process for which no file-system call fails ends with what the target holds, whether it created the
   * file, lost the race to create it or found it; it fails only if the stored file is not of a size it accepts.
   */
  lemma SmoothProcessAnswers(steps: seq<Step>, p: Pid)
    requires Legal(Init(true), steps) && forall i :: 0 <= i < |steps| ==> Smooth(steps[i], p)
    requires p in Run(Init(true), steps).pcs
    ensures var s := Run(Init(true), steps);
            && !s.pcs[p].Cleanup? && !s.pcs[p].Dead?
            && (s.pcs[p].Finished? ==>
                  if Answered(s, p) then s.lost || Stored(s, AnswerOf(s, p)) else OutOfBounds(s, p))
  {
    var s := Run(Init(true), steps);
    assert Inv(Init(true));
    RunOnItsWay(Init(true), steps, p);
    RunKeeps(Init(true), steps);
    Facts(s, p);
    hide Inv, Run;
  }

  // ---- failed calls and temporary files ------------------------------------------------------------

  /** Every failed call is noticed, by whichever process makes it and wherever it stands. */
  lemma FailureIsNoticed(s: State, p: Pid, count: nat)
    requires Enabled(s, Advance(p, true, count))
    ensures var s' := Apply(s, Advance(p, true, count)); p in s'.pcs && GivesUp(s'.pcs[p])
  {
    AdvanceGoes(s, p, true, count, 0);
    hide ApplyAdvance, MayHave;
  }

  lemma StillGivesUp(s: State, step: Step, p: Pid)
    requires Enabled(s, step) && p in s.pcs && GivesUp(s.pcs[p])
    ensures p in Apply(s, step).pcs && GivesUp(Apply(s, step).pcs[p])
  {
    if step.Advance? {
      AdvanceGoes(s, step.pid, step.fail, step.count, 0);
      hide ApplyAdvance, MayHave;
    }
  }

  /** After a failed call a process never answers with bytes, however the run goes on. */
  lemma {:induction false} FailedNeverAnswers(s: State, steps: seq<Step>, p: Pid)
    requires Legal(s, steps) && p in s.pcs && GivesUp(s.pcs[p])
    ensures p in Run(s, steps).pcs && GivesUp(Run(s, steps).pcs[p]) && !Answered(Run(s, steps), p)
    decreases |steps|
  {
    hide Apply, Enabled;
    if steps != [] {
      StillGivesUp(s, steps[0], p);
      FailedNeverAnswers(Apply(s, steps[0]), steps[1..], p);
    }
  }

  /** The error path removes the temporary file unless that fails too. */
  lemma CleanupRemoves(s: State, p: Pid, fail: bool, count: nat)
    requires Enabled(s, Advance(p, fail, count)) && s.pcs[p].Cleanup?
    ensures var s', name := Apply(s, Advance(p, fail, count)), s.pcs[p].name;
            (name in s'.temps <==> fail && name in s.temps) && s'.pcs[p] == Finished(Failed)
  {
    RemovedEverywhere(s.temps, s.pcs[p].name);
    hide Removed;
  }

  predicate TidyOk(s: State, p: Pid) {
    forall n :: n in s.temps && n in s.used && s.used[n] == p ==> p in s.pcs && MayHave(s.pcs[p], n)
  }

  lemma AdvanceTidy(s: State, q: Pid, fail: bool, count: nat, p: Pid)
    requires Moving(s, q) && TidyOk(s, p)
    ensures TidyOk(ApplyAdvance(s, q, fail, count), p)
  {
    hide ApplyAdvance, MayHave;
    var s' := ApplyAdvance(s, q, fail, count);
    forall n | n in s'.temps && n in s'.used && s'.used[n] == p ensures p in s'.pcs && MayHave(s'.pcs[p], n) {
      AdvanceGoes(s, q, fail, count, n);
    }
    AdvanceGoes(s, q, fail, count, 0);
  }

  lemma StepTidy(s: State, step: Step, p: Pid)
    requires Inv(s) && Enabled(s, step) && TidyOk(s, p)
    ensures TidyOk(Apply(s, step), p)
  {
    if step.Advance? {
      hide Inv, ApplyAdvance, TidyOk;
      AdvanceTidy(s, step.pid, step.fail, step.count, p);
    } else if !step.PowerLoss? {
      Facts(s, step.pid);
      hide Inv;
    }
  }

  lemma {:induction false} RunTidy(s: State, steps: seq<Step>, p: Pid)
    requires Inv(s) && Legal(s, steps) && TidyOk(s, p)
    ensures TidyOk(Run(s, steps), p)
    decreases |steps|
  {
    hide Inv, Apply, Enabled, TidyOk;
    if steps != [] {
      StepKeeps(s, steps[0]);
      StepTidy(s, steps[0], p);
      RunTidy(Apply(s, steps[0]), steps[1..], p);
    }
  }

  /** A process that answers has left no temporary file behind, in any run. */
  lemma AnswerLeavesNoFile(s: State, p: Pid)
    requires Reachable(s, true) && Answered(s, p)
    ensures forall n :: n in s.temps ==> n in s.used && s.used[n] != p
  {
    hide Apply, Enabled, Inv;
    var steps :| Legal(Init(true), steps) && Run(Init(true), steps) == s;
    assert Inv(Init(true)) by { InitInv(); }
    RunTidy(Init(true), steps, p);
    ReachableInv(s);
    Facts(s, p);
  }

  lemma InitInv()
    ensures Inv(Init(true))
  {
  }

  // ---- what the three files hold -----------------------------------------------------------------

  const WORKLOAD_KEY_BYTES: nat := 32
  const MAX_DEPLOYMENT_METADATA_BYTES: nat := 256
  const MAX_WORKLOAD_RECEIPT_BYTES: nat := 512

  /** Canonical bytes of a value and the strict parser for them. */
  datatype Codec<!T> = Codec(encode: T -> Bytes, parse: Bytes -> Option<T>)

  ghost predicate RoundTrips<T(!new)>(codec: Codec<T>) {
    forall x :: codec.parse(codec.encode(x)) == Some(x)
  }

  datatype Outcome<T> = Ok(value: T) | ScopeMismatch | Invalid

  datatype Metadata = Metadata(binding: int, format: nat, signedAt: int)

  /** A parsed value counts only if its canonical bytes are the stored bytes. */
  function ParseStored<T(==)>(codec: Codec<T>, bytes: Bytes): Option<T> {
    match codec.parse(bytes)
    case None => None
    case Some(x) => if codec.encode(x) == bytes then Some(x) else None
  }

  lemma StoredParses<T(!new)>(codec: Codec<T>, x: T)
    requires RoundTrips(codec)
    ensures ParseStored(codec, codec.encode(x)) == Some(x)
  {
    assert codec.parse(codec.encode(x)) == Some(x);
  }

  /** What `load_or_create_deployment_signed_at` returns for the bytes it saw. */
  function SignedAtOutcome(codec: Codec<Metadata>, binding: int, bytes: Bytes): Outcome<int> {
    match ParseStored(codec, bytes)
    case None => Invalid
    case Some(m) => if m.format != 1 then Invalid else if m.binding != binding then ScopeMismatch else Ok(m.signedAt)
  }

  /** What `persist_registration_receipt` returns for the bytes it saw. */
  function ReceiptOutcome<T(==)>(codec: Codec<T>, receipt: T, bytes: Bytes): Outcome<T> {
    match ParseStored(codec, bytes)
    case None => Invalid
    case Some(stored) => if stored == receipt then Ok(stored) else ScopeMismatch
  }

  ghost predicate ProposesMetadata(s: State, codec: Codec<Metadata>, proposals: map<Pid, Metadata>) {
    && proposals.Keys == s.calls.Keys
    && forall p :: p in proposals ==> proposals[p].format == 1 && s.calls[p].proposal == codec.encode(proposals[p])
  }

  /**
   * All successful callers get one time of signing. It is the one proposed by the process whose
   * file became the target, and a caller fails with a scope mismatch exactly when that process
   * had another binding: a stored file is never reported as corrupt.
   */
  lemma SignedAtAgreement(s: State, codec: Codec<Metadata>, proposals: map<Pid, Metadata>, p: Pid)
    requires Reachable(s, true) && !s.lost && RoundTrips(codec) && ProposesMetadata(s, codec, proposals)
    requires Answered(s, p)
    ensures p in proposals && s.target.Some? && s.target.value in s.writer && s.writer[s.target.value] in proposals
    ensures var stored := proposals[s.writer[s.target.value]];
            SignedAtOutcome(codec, proposals[p].binding, AnswerOf(s, p))
              == if stored.binding == proposals[p].binding then Ok(stored.signedAt) else ScopeMismatch
  {
    ReachableInv(s);
    assert ProcOk(s, p);
    Agreement(s, p, p);
    var w := s.writer[s.target.value];
    assert w in proposals;
    assert s.calls[w].proposal == codec.encode(proposals[w]);
    StoredParses(codec, proposals[w]);
  }

  ghost predicate ProposesReceipts<T(!new)>(s: State, codec: Codec<T>, proposals: map<Pid, T>) {
    && proposals.Keys == s.calls.Keys
    && forall p :: p in proposals ==> s.calls[p].proposal == codec.encode(proposals[p])
  }

  /** A receipt is accepted exactly when it is the one stored first. */
  lemma ReceiptAgreement<T(!new)>(s: State, codec: Codec<T>, proposals: map<Pid, T>, p: Pid)
    requires Reachable(s, true) && !s.lost && RoundTrips(codec) && ProposesReceipts(s, codec, proposals)
    requires Answered(s, p)
    ensures p in proposals && s.target.Some? && s.target.value in s.writer && s.writer[s.target.value] in proposals
    ensures var stored := proposals[s.writer[s.target.value]];
            ReceiptOutcome(codec, proposals[p], AnswerOf(s, p)) == if stored == proposals[p] then Ok(stored)
                                                                   else ScopeMismatch
  {
    ReachableInv(s);
    assert ProcOk(s, p);
    Agreement(s, p, p);
    var w := s.writer[s.target.value];
    assert w in proposals;
    assert s.calls[w].proposal == codec.encode(proposals[w]);
    StoredParses(codec, proposals[w]);
  }

  // ---- why the assumptions are needed --------------------------------------------------------------

  lemma {:induction false} RunAppend(s: State, steps: seq<Step>, step: Step)
    requires Legal(s, steps) && Enabled(Run(s, steps), step)
    ensures Legal(s, steps + [step]) && Run(s, steps + [step]) == Apply(Run(s, steps), step)
    decreases |steps|
  {
    hide Apply, Enabled;
    if steps == [] {
      assert [step][1..] == [];
      assert Legal(Apply(s, step), []);
      assert steps + [step] == [step];
    } else {
      RunAppend(Apply(s, steps[0]), steps[1..], step);
      assert (steps + [step])[1..] == steps[1..] + [step];
    }
  }

  lemma ReachStep(s: State, uniqueNames: bool, step: Step)
    requires Reachable(s, uniqueNames) && Enabled(s, step)
    ensures Reachable(Apply(s, step), uniqueNames)
  {
    hide Apply, Enabled;
    var steps :| Legal(Init(uniqueNames), steps) && Run(Init(uniqueNames), steps) == s;
    RunAppend(Init(uniqueNames), steps, step);
  }

  lemma InitReachable(uniqueNames: bool)
    ensures Reachable(Init(uniqueNames), uniqueNames)
  {
    assert Legal(Init(uniqueNames), []) && Run(Init(uniqueNames), []) == Init(uniqueNames);
  }

  /** The steps of one process, each of them successful. */
  lemma Go(s: State, uniqueNames: bool, p: Pid) returns (s': State)
    requires Reachable(s, uniqueNames) && Moving(s, p) && !s.pcs[p].Draw? && !s.pcs[p].Create?
    ensures Reachable(s', uniqueNames) && s' == ApplyAdvance(s, p, false, 0)
  {
    hide ApplyAdvance;
    ReachStep(s, uniqueNames, Advance(p, false, 0));
    s' := ApplyAdvance(s, p, false, 0);
  }

  /** A process that proposes one byte looks for the target. */
  lemma Looks(s: State, uniqueNames: bool, p: Pid, byte: bv8) returns (s': State)
    requires Reachable(s, uniqueNames) && p !in s.pcs
    ensures Reachable(s', uniqueNames)
    ensures s' == s.(pcs := s.pcs[p := if Present(s) then Open(false) else Draw],
                     calls := s.calls[p := Call([byte], 1, 1)])
  {
    hide Reachable;
    ReachStep(s, uniqueNames, Begin(p, Call([byte], 1, 1)));
    s' := Apply(s, Begin(p, Call([byte], 1, 1)));
    s' := Go(s', uniqueNames, p);
  }

  /** A process that proposes one byte and has created its temporary file. */
  lemma Started(s: State, uniqueNames: bool, p: Pid, name: Name, ino: Ino, byte: bv8) returns (s': State)
    requires Reachable(s, uniqueNames) && p !in s.pcs && !Present(s)
    requires name !in s.temps && ino !in s.files && ino !in s.writer && (s.uniqueNames ==> name !in s.used)
    ensures Reachable(s', uniqueNames)
    ensures s' == s.(pcs := s.pcs[p := Write(name, ino, 0)], calls := s.calls[p := Call([byte], 1, 1)],
                     used := s.used[name := p],
                     temps := s.temps[name := ino], files := s.files[ino := []], writer := s.writer[ino := p])
  {
    hide Reachable, ApplyAdvance;
    s' := Looks(s, uniqueNames, p, byte);
    ReachStep(s', uniqueNames, Pick(p, name));
    s' := Apply(s', Pick(p, name));
    ReachStep(s', uniqueNames, Make(p, ino));
    s' := Apply(s', Make(p, ino));
  }

  /** Its byte is written and validated: it stands before the link. */
  lemma Written(s: State, uniqueNames: bool, p: Pid, byte: bv8) returns (s': State)
    requires Reachable(s, uniqueNames) && p in s.pcs && s.pcs[p].Write? && s.pcs[p].count == 0
    requires p in s.calls && s.calls[p] == Call([byte], 1, 1)
    requires var name, ino := s.pcs[p].name, s.pcs[p].ino;
             name in s.temps && s.temps[name] == ino && ino in s.files && s.files[ino] == []
    ensures Reachable(s', uniqueNames)
    ensures s' == s.(files := s.files[s.pcs[p].ino := [byte]], pcs := s.pcs[p := Link(s.pcs[p].name, s.pcs[p].ino)])
  {
    hide Reachable;
    s' := Go(s, uniqueNames, p);
    assert s'.files[s.pcs[p].ino] == [byte];
    s' := Go(s', uniqueNames, p);
    s' := Go(s', uniqueNames, p);
  }

  /** A process that links whatever its temporary name denotes, removes the name and flushes the directory. */
  lemma Publishes(s: State, uniqueNames: bool, p: Pid, byte: bv8) returns (s': State)
    requires Reachable(s, uniqueNames) && p in s.pcs && s.pcs[p].Link? && s.pcs[p].name in s.temps && !Present(s)
    requires p in s.calls && s.calls[p] == Call([byte], 1, 1)
    ensures Reachable(s', uniqueNames)
    ensures s' == s.(target := Some(s.temps[s.pcs[p].name]), temps := s'.temps, durable := true,
                     pcs := s.pcs[p := Finished(Saw([byte], true))])
  {
    hide Reachable;
    s' := Go(s, uniqueNames, p);
    s' := Go(s', uniqueNames, p);
    s' := Go(s', uniqueNames, p);
  }

  /** A process that looks, finds the target and opens it. */
  lemma Opens(s: State, uniqueNames: bool, p: Pid, proposal: bv8) returns (s': State)
    requires Reachable(s, uniqueNames) && p !in s.pcs && Present(s) && s.target.value in s.files
             && |s.files[s.target.value]| == 1
    ensures Reachable(s', uniqueNames)
    ensures s' == s.(pcs := s.pcs[p := Read(s.target.value, [], false)], calls := s.calls[p := Call([proposal], 1, 1)])
  {
    hide Reachable;
    s' := Looks(s, uniqueNames, p, proposal);
    s' := Go(s', uniqueNames, p);
    s' := Go(s', uniqueNames, p);
  }

  /** It then reads the one byte and the end of the file. */
  lemma Reads(s: State, uniqueNames: bool, p: Pid, proposal: bv8) returns (s': State)
    requires Reachable(s, uniqueNames) && p !in s.pcs && Present(s) && s.target.value in s.files
             && |s.files[s.target.value]| == 1
    ensures Reachable(s', uniqueNames)
    ensures s' == s.(pcs := s.pcs[p := Finished(Saw(s.files[s.target.value], false))],
                     calls := s.calls[p := Call([proposal], 1, 1)])
  {
    hide Reachable;
    assert [] + s.files[s.target.value][0..1] == s.files[s.target.value];
    s' := Opens(s, uniqueNames, p, proposal);
    s' := Go(s', uniqueNames, p);
    s' := Go(s', uniqueNames, p);
  }

  /** A reader that has not flushed the directory may be contradicted after a power loss. */
  lemma UnsyncedReaderCanBeContradicted() returns (s: State)
    ensures Reachable(s, true) && s.lost
    ensures Answered(s, 2) && Answered(s, 3) && !Synced(s, 2) && Synced(s, 3) && AnswerOf(s, 2) != AnswerOf(s, 3)
  {
    hide Reachable;
    InitReachable(true);
    s := Started(Init(true), true, 1, 10, 100, 1);
    s := Written(s, true, 1, 1);
    s := Go(s, true, 1);
    s := Reads(s, true, 2, 5);
    ReachStep(s, true, PowerLoss(true));
    s := Apply(s, PowerLoss(true));
    s := Started(s, true, 3, 11, 101, 2);
    s := Written(s, true, 3, 2);
    s := Publishes(s, true, 3, 2);
  }

  /** With a repeated temporary name one process publishes another one's unfinished file. */
  lemma RepeatedNameBreaksAgreement() returns (s: State)
    ensures Reachable(s, false) && !s.lost
    ensures Answered(s, 1) && Answered(s, 4) && AnswerOf(s, 1) != AnswerOf(s, 4)
  {
    hide Reachable, ApplyAdvance;
    s := Misled();
    s := Reads(s, false, 4, 5);
  }

  /** Process 1 succeeds with its own byte although the target is process 3's file. */
  lemma Misled() returns (s: State)
    ensures Reachable(s, false) && !s.lost && s.target == Some(101)
    ensures s.pcs.Keys == {1, 2, 3} && s.pcs[1] == Finished(Saw([1], true)) && s.files == map[100 := [1], 101 := [3]]
  {
    hide Reachable;
    s := Collision();
    s := Publishes(s, false, 1, 1);
    s := Go(s, false, 3);
    assert s.files[101] == [3];
  }

  /** Process 2 removes process 1's file under the shared name, and process 3 takes the name. */
  lemma Collision() returns (s: State)
    ensures Reachable(s, false) && !s.lost && !Present(s) && !s.durable
    ensures s.pcs == map[1 := Link(10, 100), 2 := Finished(Failed), 3 := Write(10, 101, 0)]
    ensures s.temps == map[10 := 101] && s.files == map[100 := [1], 101 := []]
    ensures s.calls == map[1 := Call([1], 1, 1), 2 := Call([2], 1, 1), 3 := Call([3], 1, 1)]
  {
    hide Reachable;
    InitReachable(false);
    s := Started(Init(false), false, 1, 10, 100, 1);
    s := Written(s, false, 1, 1);
    ReachStep(s, false, Begin(2, Call([2], 1, 1)));
    s := Apply(s, Begin(2, Call([2], 1, 1)));
    s := Go(s, false, 2);
    ReachStep(s, false, Pick(2, 10));
    s := Apply(s, Pick(2, 10));
    ReachStep(s, false, Make(2, 102));
    s := Apply(s, Make(2, 102));
    s := Go(s, false, 2);
    s := Started(s, false, 3, 10, 101, 3);
  }
}
