// The thread's stack of automatic operations: installing a context for one poll, restoring the stack
// afterwards, and invalidating the operations of every poll that did not nest.

module ContextStack {
  const MAX_NESTING: nat := 16
  const MAX_EVENTS: nat := 1024
  const AMBIENT_SESSION_ID_START: nat := 0x8000_0000_0000_0000

  /** An operation on the stack; `shared` identifies the operation's shared state. */
  datatype Context<T> = Context(operation: int, shared: T)

  datatype Restore<T> = Pop(expected: Context<T>) | Replace(previous: seq<Context<T>>)

  /** What an install or a drop leaves: the stack, the guard, and whom it invalidates. */
  datatype Installed<T> = Installed(stack: seq<Context<T>>, restore: Restore<T>, invalidates: set<T>)
  datatype Dropped<T> = Dropped(stack: seq<Context<T>>, invalidates: set<T>)

  function SharedOf<T(==)>(stack: seq<Context<T>>): (r: set<T>)
    ensures forall i :: 0 <= i < |stack| ==> stack[i].shared in r
  {
    set i | 0 <= i < |stack| :: stack[i].shared
  }

  predicate CanPush<T(==)>(stack: seq<Context<T>>, c: Context<T>, active: bool) {
    active && |stack| < MAX_NESTING && forall i :: 0 <= i < |stack| ==> stack[i].shared != c.shared
  }

  /** `AutomaticPollContext::install`. */
  function Install<T(==)>(stack: seq<Context<T>>, c: Context<T>, active: bool): Installed<T> {
    if CanPush(stack, c, active) then Installed(stack + [c], Pop(c), {})
    else Installed([], Replace(stack), {c.shared})
  }

  /** `AutomaticPollContext::drop`. */
  function Drop<T(==)>(stack: seq<Context<T>>, restore: Restore<T>): Dropped<T> {
    match restore
    case Replace(previous) => Dropped(previous, SharedOf(stack))
    case Pop(expected) =>
      if stack != [] && stack[|stack| - 1] == expected then Dropped(stack[..|stack| - 1], {})
      else Dropped([], SharedOf(stack) + {expected.shared})
  }

  /** Duplicate-free and not too deep. */
  predicate StackOk<T(==)>(stack: seq<Context<T>>) {
    |stack| <= MAX_NESTING && forall i, j :: 0 <= i < j < |stack| ==> stack[i].shared != stack[j].shared
  }

  predicate RestoreOk<T(==)>(restore: Restore<T>) {
    restore.Replace? ==> StackOk(restore.previous)
  }

  lemma InstallKeeps<T>(stack: seq<Context<T>>, c: Context<T>, active: bool)
    requires StackOk(stack)
    ensures var r := Install(stack, c, active); StackOk(r.stack) && RestoreOk(r.restore)
    ensures c.shared in Install(stack, c, active).invalidates || (c in Install(stack, c, active).stack && active)
  {
    var r := Install(stack, c, active);
    if CanPush(stack, c, active) {
      assert r.stack[|stack|] == c;
    }
  }

  /** Exactly an active context, found nowhere below a stack of less than sixteen, is put on top of it. */
  lemma InstallVerdict<T>(stack: seq<Context<T>>, c: Context<T>, active: bool)
    ensures var r := Install(stack, c, active); var pushed := Installed(stack + [c], Pop(c), {});
            && (active && |stack| < 16 && (forall below :: below in stack ==> below.shared != c.shared) ==> r == pushed)
            && (!active || |stack| >= 16 || (exists below :: below in stack && below.shared == c.shared) ==>
                  r == Installed([], Replace(stack), {c.shared}))
  {
    if exists below :: below in stack && below.shared == c.shared {
      var below :| below in stack && below.shared == c.shared;
      var i :| 0 <= i < |stack| && stack[i] == below;
      assert stack[i].shared == c.shared;
    }
  }

  lemma DropKeeps<T>(stack: seq<Context<T>>, restore: Restore<T>)
    requires StackOk(stack) && RestoreOk(restore)
    ensures StackOk(Drop(stack, restore).stack)
  {
  }

  // ---- nested polls ----------------------------------------------------------------------------------

  /** What runs on a thread: nested scopes, and anything that leaves the stack alone. */
  datatype Program =
    | Skip
    | Then(first: Program, second: Program)
    | Scope(context: Context<int>, body: Program)
    | Invalidate(shared: int)
    | Take(shared: int)
    | Deactivate(shared: int)

  /** The thread's stack, the invalidated operations, those that own a coordinator, and how often one was taken. */
  datatype State = State(stack: seq<Context<int>>, invalid: set<int>, live: set<int>, takes: map<int, nat>)

  predicate Active(s: State, x: int) {
    x !in s.invalid && x in s.live
  }

  function Takes(s: State, x: int): nat {
    if x in s.takes then s.takes[x] else 0
  }

  /** `take_for_close`: the coordinator goes in any case, but only a valid operation gets it. */
  function TakeForClose(s: State, x: int): State {
    if x in s.invalid then s.(live := s.live - {x})
    else s.(invalid := s.invalid + {x}, live := s.live - {x},
            takes := if x in s.live then s.takes[x := Takes(s, x) + 1] else s.takes)
  }

  function Exec(p: Program, s: State): State
    decreases p
  {
    match p
    case Skip => s
    case Then(first, second) => Exec(second, Exec(first, s))
    case Scope(c, body) =>
      var i := Install(s.stack, c, Active(s, c.shared));
      var inner := Exec(body, s.(stack := i.stack, invalid := s.invalid + i.invalidates));
      var d := Drop(inner.stack, i.restore);
      inner.(stack := d.stack, invalid := inner.invalid + d.invalidates)
    case Invalidate(x) => s.(invalid := s.invalid + {x})
    case Take(x) => TakeForClose(s, x)
    case Deactivate(x) => s.(invalid := s.invalid + {x}, live := s.live - {x})
  }

  /** Every well-bracketed nesting restores the stack exactly, whether its installs pushed or replaced. */
  lemma {:induction false} NestingRestoresStack(p: Program, s: State)
    ensures Exec(p, s).stack == s.stack
    decreases p
  {
    match p
    case Then(first, second) =>
      NestingRestoresStack(first, s);
      NestingRestoresStack(second, Exec(first, s));
    case Scope(c, body) =>
      var i := Install(s.stack, c, Active(s, c.shared));
      NestingRestoresStack(body, s.(stack := i.stack, invalid := s.invalid + i.invalidates));
    case _ =>
  }

  /** In a well-bracketed nesting no drop invalidates anyone. */
  lemma NestedDropIsSilent(c: Context<int>, body: Program, s: State)
    ensures var i := Install(s.stack, c, Active(s, c.shared));
            var inner := Exec(body, s.(stack := i.stack, invalid := s.invalid + i.invalidates));
            Drop(inner.stack, i.restore) == Dropped(s.stack, {})
  {
    var i := Install(s.stack, c, Active(s, c.shared));
    NestingRestoresStack(body, s.(stack := i.stack, invalid := s.invalid + i.invalidates));
    assert SharedOf<int>([]) == {};
  }

  /** Invalidity is sticky, coordinators never come back, and the counts of takes only grow. */
  lemma {:induction false} InvalidIsSticky(p: Program, s: State)
    ensures s.invalid <= Exec(p, s).invalid && Exec(p, s).live <= s.live
    ensures forall x :: Takes(s, x) <= Takes(Exec(p, s), x)
    decreases p
  {
    match p
    case Then(first, second) =>
      InvalidIsSticky(first, s);
      InvalidIsSticky(second, Exec(first, s));
      forall x ensures Takes(s, x) <= Takes(Exec(p, s), x) {
        assert Takes(s, x) <= Takes(Exec(first, s), x) <= Takes(Exec(second, Exec(first, s)), x);
      }
    case Scope(c, body) =>
      var i := Install(s.stack, c, Active(s, c.shared));
      var inside := s.(stack := i.stack, invalid := s.invalid + i.invalidates);
      InvalidIsSticky(body, inside);
      forall x ensures Takes(s, x) <= Takes(Exec(p, s), x) {
        assert Takes(inside, x) <= Takes(Exec(body, inside), x);
      }
    case _ =>
  }

  /** An invalidated operation never passes `take_for_close`. */
  lemma {:induction false} InvalidNeverPasses(p: Program, s: State, x: int)
    requires x in s.invalid
    ensures Takes(Exec(p, s), x) == Takes(s, x)
    decreases p
  {
    match p
    case Then(first, second) =>
      InvalidNeverPasses(first, s, x);
      InvalidIsSticky(first, s);
      InvalidNeverPasses(second, Exec(first, s), x);
    case Scope(c, body) =>
      var i := Install(s.stack, c, Active(s, c.shared));
      InvalidNeverPasses(body, s.(stack := i.stack, invalid := s.invalid + i.invalidates), x);
    case _ =>
  }

  /** The drop does not find the stack that its install left behind. */
  predicate Mismatched(stack: seq<Context<int>>, restore: Restore<int>) {
    match restore
    case Pop(expected) => stack == [] || stack[|stack| - 1] != expected
    case Replace(_) => stack != []
  }

  /** The operation of a context on the stack, or of the dropped context itself. */
  predicate Involved(stack: seq<Context<int>>, restore: Restore<int>, x: int) {
    (restore.Pop? && x == restore.expected.shared) || exists c :: c in stack && c.shared == x
  }

  /** After a mismatched drop, whatever runs next, nobody involved ever passes `take_for_close`. */
  lemma MismatchIsFinal(s: State, restore: Restore<int>, p: Program, x: int)
    requires Mismatched(s.stack, restore) && Involved(s.stack, restore, x)
    ensures var d := Drop(s.stack, restore);
            Takes(Exec(p, s.(stack := d.stack, invalid := s.invalid + d.invalidates)), x) == Takes(s, x)
  {
    var d := Drop(s.stack, restore);
    if exists c :: c in s.stack && c.shared == x {
      var c :| c in s.stack && c.shared == x;
      var i :| 0 <= i < |s.stack| && s.stack[i] == c;
      assert s.stack[i].shared in SharedOf(s.stack);
    }
    InvalidNeverPasses(p, s.(stack := d.stack, invalid := s.invalid + d.invalidates), x);
  }

  /**
   * A drop invalidates the operations involved in a mismatch, all of them and nobody else. A replaced stack
   * comes back in any case; a pushed one does unless the drop is mismatched, and is then empty.
   */
  lemma DropVerdict(stack: seq<Context<int>>, restore: Restore<int>, x: int)
    ensures var d := Drop(stack, restore);
            && (x in d.invalidates <==> Mismatched(stack, restore) && Involved(stack, restore, x))
            && (restore.Replace? ==> d.stack == restore.previous)
            && (restore.Pop? && Mismatched(stack, restore) ==> d.stack == [])
            && (restore.Pop? && !Mismatched(stack, restore) ==> stack == d.stack + [restore.expected])
  {
    assert x in SharedOf(stack) <==> exists c :: c in stack && c.shared == x by {
      if x in SharedOf(stack) {
        var i :| 0 <= i < |stack| && stack[i].shared == x;
        assert stack[i] in stack;
      }
      if c :| c in stack && c.shared == x {
        var i :| 0 <= i < |stack| && stack[i] == c;
        assert stack[i].shared in SharedOf(stack);
      }
    }
  }

  /** Wherever it runs, a close succeeds iff the operation was never invalidated and still has its coordinator. */
  lemma TakenIffActive(p: Program, s: State, x: int)
    ensures var before := Exec(p, s); var after := Exec(Then(p, Take(x)), s);
            && Takes(after, x) == Takes(before, x) + (if Active(before, x) then 1 else 0)
            && !Active(after, x) && (Active(before, x) ==> Active(s, x))
            && forall y :: y != x ==> Takes(after, y) == Takes(before, y) && (Active(after, y) <==> Active(before, y))
  {
    InvalidIsSticky(p, s);
  }

  /** An operation is closed at most once. */
  lemma {:induction false} TakenAtMostOnce(p: Program, s: State, x: int)
    requires Takes(s, x) <= 1 && (Takes(s, x) == 1 ==> x in s.invalid)
    ensures Takes(Exec(p, s), x) <= 1 && (Takes(Exec(p, s), x) == 1 ==> x in Exec(p, s).invalid)
    decreases p
  {
    match p
    case Then(first, second) =>
      TakenAtMostOnce(first, s, x);
      TakenAtMostOnce(second, Exec(first, s), x);
    case Scope(c, body) =>
      var i := Install(s.stack, c, Active(s, c.shared));
      TakenAtMostOnce(body, s.(stack := i.stack, invalid := s.invalid + i.invalidates), x);
    case _ =>
  }

  /** The current stack of any nesting stays duplicate-free and at most 16 deep, at every point inside it. */
  predicate StackOkThroughout(p: Program, s: State)
    decreases p
  {
    && StackOk(s.stack)
    && match p
       case Then(first, second) => StackOkThroughout(first, s) && StackOkThroughout(second, Exec(first, s))
       case Scope(c, body) =>
         var i := Install(s.stack, c, Active(s, c.shared));
         StackOkThroughout(body, s.(stack := i.stack, invalid := s.invalid + i.invalidates))
       case _ => true
  }

  lemma {:induction false} StackStaysOk(p: Program, s: State)
    requires StackOk(s.stack)
    ensures StackOkThroughout(p, s)
    decreases p
  {
    match p
    case Then(first, second) =>
      StackStaysOk(first, s);
      NestingRestoresStack(first, s);
      StackStaysOk(second, Exec(first, s));
    case Scope(c, body) =>
      InstallKeeps(s.stack, c, Active(s, c.shared));
      var i := Install(s.stack, c, Active(s, c.shared));
      StackStaysOk(body, s.(stack := i.stack, invalid := s.invalid + i.invalidates));
    case _ =>
  }

  // ---- guards that do not nest -------------------------------------------------------------------

  /** The stack and the guards alive, in any order of installs and drops. */
  datatype Thread = Thread(stack: seq<Context<int>>, guards: map<int, Restore<int>>)

  datatype Move = InstallMove(guard: int, context: Context<int>, active: bool) | DropMove(guard: int)

  predicate MayMove(t: Thread, m: Move) {
    match m
    case InstallMove(g, _, _) => g !in t.guards
    case DropMove(g) => g in t.guards
  }

  function MoveThread(t: Thread, m: Move): Thread
    requires MayMove(t, m)
  {
    match m
    case InstallMove(g, c, active) => var i := Install(t.stack, c, active); Thread(i.stack, t.guards[g := i.restore])
    case DropMove(g) => Thread(Drop(t.stack, t.guards[g]).stack, t.guards - {g})
  }

  predicate ThreadOk(t: Thread) {
    StackOk(t.stack) && forall g :: g in t.guards ==> RestoreOk(t.guards[g])
  }

  lemma MoveKeeps(t: Thread, m: Move)
    requires ThreadOk(t) && MayMove(t, m)
    ensures ThreadOk(MoveThread(t, m))
  {
    match m
    case InstallMove(g, c, active) => InstallKeeps(t.stack, c, active);
    case DropMove(g) => DropKeeps(t.stack, t.guards[g]);
  }

  // ---- the objects -----------------------------------------------------------------------------------

  /** `AutomaticOperationShared`, seen through its sticky state. */
  class Operation {
    var ambientSessionCount: nat
    var hasCoordinator: bool
    var invalidContext: bool
    ghost var taken: nat           // history: how often take_for_close succeeded
    ghost var everInvalid: bool    // history

    ghost predicate Valid()
      reads this
    {
      && ambientSessionCount <= MAX_EVENTS
      && taken <= 1 && (taken == 1 ==> invalidContext && !hasCoordinator)
      && (everInvalid <==> invalidContext)
    }

    constructor ()
      ensures Valid() && !invalidContext && hasCoordinator && ambientSessionCount == 0 && taken == 0
    {
      ambientSessionCount, hasCoordinator, invalidContext := 0, true, false;
      taken, everInvalid := 0, false;
    }

    predicate IsActive()
      reads this
    {
      !invalidContext && hasCoordinator
    }

    method InvalidateState()
      modifies this`invalidContext, this`everInvalid
      ensures invalidContext && everInvalid
    {
      invalidContext, everInvalid := true, true;
    }

    /** Succeeds once, and only if the operation was never invalidated. */
    method TakeForClose() returns (ok: bool)
      requires Valid()
      modifies this`invalidContext, this`hasCoordinator, this`taken, this`everInvalid
      ensures Valid()
      ensures ok <==> !old(everInvalid) && old(hasCoordinator)
      ensures taken == old(taken) + (if ok then 1 else 0) && invalidContext && !hasCoordinator
    {
      everInvalid := true;
      if invalidContext {
        hasCoordinator := false;
        return false;
      }
      invalidContext := true;
      ok := hasCoordinator;
      hasCoordinator := false;
      taken := taken + if ok then 1 else 0;
    }

    method Deactivate()
      requires Valid()
      modifies this`invalidContext, this`hasCoordinator, this`everInvalid
      ensures Valid() && invalidContext && !hasCoordinator
    {
      invalidContext, hasCoordinator, everInvalid := true, false, true;
    }

    /** Ambient sessions get distinct identifiers from the upper half; too many invalidate the operation. */
    method OpenAmbientSession() returns (sessionId: int)
      requires Valid()
      modifies this`ambientSessionCount, this`invalidContext, this`everInvalid
      ensures Valid()
      ensures old(invalidContext) ==>
                sessionId == -1 && invalidContext && ambientSessionCount == old(ambientSessionCount)
      ensures !old(invalidContext) && old(ambientSessionCount) >= MAX_EVENTS ==>
                sessionId == -1 && invalidContext && ambientSessionCount == old(ambientSessionCount)
      ensures !old(invalidContext) && old(ambientSessionCount) < MAX_EVENTS ==>
                !invalidContext && ambientSessionCount == old(ambientSessionCount) + 1
                && sessionId == if hasCoordinator then AMBIENT_SESSION_ID_START + old(ambientSessionCount) else -1
    {
      if invalidContext {
        return -1;
      }
      if ambientSessionCount >= MAX_EVENTS {
        InvalidateState();
        return -1;
      }
      sessionId := AMBIENT_SESSION_ID_START + ambientSessionCount;
      ambientSessionCount := ambientSessionCount + 1;
      if !hasCoordinator {
        return -1;
      }
    }

    /** Both abandoning and failing a session invalidate the operation. */
    method FailSession()
      requires Valid()
      modifies this`invalidContext, this`everInvalid
      ensures Valid() && invalidContext
    {
      invalidContext, everInvalid := true, true;
    }
  }

  class OperationStack {
    var stack: seq<Context<Operation>>

    constructor ()
      ensures stack == []
    {
      stack := [];
    }

    method InstallContext(c: Context<Operation>) returns (restore: Restore<Operation>)
      modifies this, c.shared`invalidContext, c.shared`everInvalid
      ensures var i := Install(old(stack), c, old(c.shared.IsActive()));
              && stack == i.stack && restore == i.restore
              && (if c.shared in i.invalidates then c.shared.invalidContext && c.shared.everInvalid
                  else c.shared.invalidContext == old(c.shared.invalidContext)
                       && c.shared.everInvalid == old(c.shared.everInvalid))
    {
      var canPush := c.shared.IsActive() && |stack| < MAX_NESTING;
      for k := 0 to |stack|
        invariant canPush <==>
                  && old(c.shared.IsActive()) && |stack| < MAX_NESTING
                  && forall j :: 0 <= j < k ==> stack[j].shared != c.shared
        invariant stack == old(stack) && c.shared.invalidContext == old(c.shared.invalidContext)
                  && c.shared.everInvalid == old(c.shared.everInvalid)
      {
        if stack[k].shared == c.shared {
          canPush := false;
        }
      }
      if canPush {
        stack := stack + [c];
        restore := Pop(c);
      } else {
        c.shared.InvalidateState();
        restore := Replace(stack);
        stack := [];
      }
    }

    /** Invalidates whoever is still on the stack and empties it. */
    method Drain()
      modifies this, set i | 0 <= i < |stack| :: stack[i].shared
      ensures stack == []
      ensures forall i :: 0 <= i < |old(stack)| ==>
                old(stack)[i].shared.invalidContext && old(stack)[i].shared.everInvalid
      ensures forall i :: 0 <= i < |old(stack)| ==>
                old(stack)[i].shared.hasCoordinator == old(stack[i].shared.hasCoordinator)
    {
      for k := 0 to |stack|
        invariant stack == old(stack)
        invariant forall i :: 0 <= i < k ==> stack[i].shared.invalidContext && stack[i].shared.everInvalid
        invariant forall i :: 0 <= i < |stack| ==> stack[i].shared.hasCoordinator == old(stack[i].shared.hasCoordinator)
      {
        stack[k].shared.InvalidateState();
      }
      stack := [];
    }

    method DropContext(restore: Restore<Operation>)
      modifies this, set i | 0 <= i < |stack| :: stack[i].shared
      modifies if restore.Pop? then {restore.expected.shared} else {}
      ensures stack == Drop(old(stack), restore).stack
      ensures forall x :: x in Drop(old(stack), restore).invalidates ==> x.invalidContext && x.everInvalid
      ensures Drop(old(stack), restore).invalidates == {} ==>
                forall i :: 0 <= i < |old(stack)| ==>
                      old(stack)[i].shared.invalidContext == old(stack[i].shared.invalidContext)
    {
      match restore
      case Replace(previous) =>
        Drain();
        stack := previous;
      case Pop(expected) =>
        if stack == [] {
          expected.shared.InvalidateState();
          return;
        }
        var top := stack[|stack| - 1];
        stack := stack[..|stack| - 1];
        if top.operation == expected.operation && top.shared == expected.shared {
          return;
        }
        top.shared.InvalidateState();
        expected.shared.InvalidateState();
        Drain();
    }

    /** The context may act only while it is on top of the stack and active; otherwise both sides become invalid. */
    method RequireCurrent(c: Context<Operation>) returns (ok: bool)
      modifies c.shared, set i | 0 <= i < |stack| :: stack[i].shared
      ensures ok <==> stack != [] && stack[|stack| - 1] == c && old(c.shared.IsActive())
      ensures !ok ==> c.shared.invalidContext && (stack != [] ==> stack[|stack| - 1].shared.invalidContext)
      ensures ok ==> c.shared.IsActive()
    {
      ok := stack != [] && stack[|stack| - 1].operation == c.operation && stack[|stack| - 1].shared == c.shared
          && c.shared.IsActive();
      if !ok {
        c.shared.InvalidateState();
        if stack != [] {
          stack[|stack| - 1].shared.InvalidateState();
        }
      }
    }
  }
}
