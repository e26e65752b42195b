// The coverage sentinel's controller: attribution of drained kernel events to dispatched
// observations, and the coverage result of an operation.
module Sentinel {
  import opened Classes
  import opened Arith
  import opened MapSums
  import EventChannel

  type EventKind = EventChannel.EventKind
  type Event = EventChannel.Event
  type Handle = int

  const MAX_ACTIVE_OPERATIONS: nat := 512
  const MAX_ACTIVE_OBSERVATIONS: nat := 1024
  const DRAIN_BATCH: nat := 64

  datatype ActiveOperation = ActiveOperation(startSequence: nat, relevantEvents: nat, ownedEvents: nat,
                                             incomplete: bool)
  datatype ActiveObservation = ActiveObservation(operation: Handle, class_: ObservationClass, thread: int,
                                                 dispatched: bool)

  datatype Coverage =
    | Incomplete
    | CleanKernelTrace(startSequence: nat, endSequence: nat, relevantEvents: nat, ownedEvents: nat)

  // ---- ownership ---------------------------------------------------------------------------------

  predicate IsExactlyOwnedBy(kind: EventKind, class_: ObservationClass) {
    match kind
    case Filesystem => class_ == ObservationClass.Filesystem
    case Clock => class_ == ObservationClass.Clock
    case Randomness => class_ == ObservationClass.Randomness
    case _ => false
  }

  predicate IsOwnedBy(kind: EventKind, class_: ObservationClass) {
    match kind
    case Filesystem => class_ in {ObservationClass.Database, ObservationClass.Filesystem,
                                  ObservationClass.OutboundHttp, ObservationClass.Queue}
    case Network => class_ in {ObservationClass.Database, ObservationClass.OutboundHttp, ObservationClass.Queue}
    case Clock => class_ in {ObservationClass.Clock, ObservationClass.Database, ObservationClass.OutboundHttp,
                             ObservationClass.Queue}
    case Randomness => class_ in {ObservationClass.Database, ObservationClass.OutboundHttp, ObservationClass.Queue,
                                  ObservationClass.Randomness}
    case Process => false
    case Exit => false
  }

  /** A dispatched observation on the event's thread whose class owns the event. */
  predicate Matches(o: ActiveObservation, event: Event, exactly: bool) {
    o.dispatched && o.thread == event.effect.thread
    && if exactly then IsExactlyOwnedBy(event.effect.kind, o.class_) else IsOwnedBy(event.effect.kind, o.class_)
  }

  function Matching(observations: map<Handle, ActiveObservation>, event: Event, exactly: bool): set<Handle> {
    set h | h in observations && Matches(observations[h], event, exactly)
  }

  /** The observations that compete for an event: the exact ones if there are any. */
  function Candidates(observations: map<Handle, ActiveObservation>, event: Event): set<Handle> {
    var exact := Matching(observations, event, true);
    if exact == {} then Matching(observations, event, false) else exact
  }

  /**
   * `h` is the one observation that accounts for the event: it matches, and every other one that
   * matches is a transitive owner shadowed by the exact match of `h`.
   */
  ghost predicate SoleOwner(observations: map<Handle, ActiveObservation>, event: Event, h: Handle) {
    && h in observations && Matches(observations[h], event, false)
    && forall other :: other in observations && other != h && Matches(observations[other], event, false) ==>
         Matches(observations[h], event, true) && !Matches(observations[other], event, true)
  }

  lemma ExactIsOwned(kind: EventKind, class_: ObservationClass)
    ensures IsExactlyOwnedBy(kind, class_) ==> IsOwnedBy(kind, class_)
  {
  }

  lemma Singleton<T>(s: set<T>, x: T)
    requires x in s
    ensures |s| == 1 <==> s == {x}
  {
    assert s == {x} + (s - {x});
  }

  lemma SomeElement<T>(s: set<T>) returns (x: T)
    requires |s| > 0
    ensures x in s
  {
    assert s != {};
    x :| x in s;
  }

  /** The controller finds exactly one competing observation exactly when there is a sole owner. */
  lemma OneCandidateIffSoleOwner(observations: map<Handle, ActiveObservation>, event: Event)
    ensures |Candidates(observations, event)| == 1 <==> exists h :: SoleOwner(observations, event, h)
    ensures forall h :: SoleOwner(observations, event, h) ==> Candidates(observations, event) == {h}
  {
    var all := Candidates(observations, event);
    forall h | SoleOwner(observations, event, h) ensures all == {h} {
      SoleOwnerIsCandidate(observations, event, h);
    }
    if |all| == 1 {
      var h := SomeElement(all);
      Singleton(all, h);
      LoneCandidateOwns(observations, event, h);
    }
  }

  lemma SoleOwnerIsCandidate(observations: map<Handle, ActiveObservation>, event: Event, h: Handle)
    requires SoleOwner(observations, event, h)
    ensures Candidates(observations, event) == {h}
  {
    var exact := Matching(observations, event, true);
    assert Matches(observations[h], event, true) <==> h in exact;
    forall o | o in Candidates(observations, event) ensures o == h {
      ExactIsOwned(event.effect.kind, observations[o].class_);
      assert o !in exact ==> exact == {};
    }
    if exact != {} {
      var o := SomeElement(exact);
      ExactIsOwned(event.effect.kind, observations[o].class_);
    }
    assert h in Candidates(observations, event);
  }

  lemma LoneCandidateOwns(observations: map<Handle, ActiveObservation>, event: Event, h: Handle)
    requires Candidates(observations, event) == {h}
    ensures SoleOwner(observations, event, h)
  {
    assert h in Candidates(observations, event);
    ExactIsOwned(event.effect.kind, observations[h].class_);
    forall other | other in observations && other != h && Matches(observations[other], event, false)
      ensures Matches(observations[h], event, true) && !Matches(observations[other], event, true)
    {
      assert other !in Candidates(observations, event);
    }
  }

  // ---- the history that explains the counters ------------------------------------------------------

  /** What the controller has been told: a drained event beside the observations of that moment, or a fault. */
  datatype Entry = Seen(event: Event, observations: map<Handle, ActiveObservation>) | Fault

  predicate Counts(e: Entry) {
    e.Seen? && !e.event.effect.kind.Exit?
  }

  /** The event is attributed to the operation. */
  ghost predicate OwnedBy(e: Entry, operation: Handle) {
    Counts(e) && exists h :: SoleOwner(e.observations, e.event, h) && e.observations[h].operation == operation
  }

  ghost predicate Unowned(e: Entry) {
    Counts(e) && !exists h :: SoleOwner(e.observations, e.event, h)
  }

  ghost function OwnedCount(log: seq<Entry>, operation: Handle): nat {
    if log == [] then 0
    else OwnedCount(log[..|log| - 1], operation) + (if OwnedBy(log[|log| - 1], operation) then 1 else 0)
  }

  ghost function UnownedCount(log: seq<Entry>): nat {
    if log == [] then 0
    else UnownedCount(log[..|log| - 1]) + (if Unowned(log[|log| - 1]) then 1 else 0)
  }

  ghost predicate Clean(log: seq<Entry>) {
    forall e :: e in log ==> e.Seen? && !Unowned(e)
  }

  /** Where an operation began in the history, and what the runtime said then. */
  datatype Mark = Mark(at: nat, startSequence: nat, incomplete: bool)

  /** The counters that the history since the mark prescribes. */
  ghost predicate Explains(op: ActiveOperation, operation: Handle, mark: Mark, log: seq<Entry>) {
    && mark.at <= |log|
    && op.startSequence == mark.startSequence
    && op.ownedEvents == Min(OwnedCount(log[mark.at..], operation), U64_MAX)
    && op.relevantEvents == Min(OwnedCount(log[mark.at..], operation) + UnownedCount(log[mark.at..]), U64_MAX)
    && (op.incomplete <==> mark.incomplete || !Clean(log[mark.at..]))
  }

  lemma CountsAppend(log: seq<Entry>, e: Entry, operation: Handle)
    ensures OwnedCount(log + [e], operation) == OwnedCount(log, operation) + (if OwnedBy(e, operation) then 1 else 0)
    ensures UnownedCount(log + [e]) == UnownedCount(log) + (if Unowned(e) then 1 else 0)
    ensures Clean(log + [e]) <==> Clean(log) && e.Seen? && !Unowned(e)
  {
    assert (log + [e])[..|log|] == log;
    assert e in log + [e];
  }

  lemma CleanHasNoUnowned(log: seq<Entry>)
    requires Clean(log)
    ensures UnownedCount(log) == 0
  {
    if log != [] {
      CleanHasNoUnowned(log[..|log| - 1]);
    }
  }

  /** One more entry, for one operation. */
  function Bumped(op: ActiveOperation, relevant: bool, owned: bool, faulty: bool): ActiveOperation {
    op.(relevantEvents := if relevant then SatAdd(op.relevantEvents, 1) else op.relevantEvents,
        ownedEvents := if owned then SatAdd(op.ownedEvents, 1) else op.ownedEvents,
        incomplete := op.incomplete || faulty)
  }

  lemma ExplainsNext(op: ActiveOperation, operation: Handle, mark: Mark, log: seq<Entry>, e: Entry)
    requires Explains(op, operation, mark, log)
    ensures Explains(Bumped(op, OwnedBy(e, operation) || Unowned(e), OwnedBy(e, operation), e.Fault? || Unowned(e)),
                     operation, mark, log + [e])
  {
    assert (log + [e])[mark.at..] == log[mark.at..] + [e];
    CountsAppend(log[mark.at..], e, operation);
  }

  /** Every active operation's counters are what the history since its start prescribes. */
  ghost predicate Accounts(operations: map<Handle, ActiveOperation>, marks: map<Handle, Mark>, log: seq<Entry>) {
    && marks.Keys == operations.Keys
    && forall h :: h in operations ==> Explains(operations[h], h, marks[h], log)
  }

  lemma AccountsNext(operations: map<Handle, ActiveOperation>, next: map<Handle, ActiveOperation>,
                     marks: map<Handle, Mark>,
                     log: seq<Entry>, e: Entry)
    requires Accounts(operations, marks, log) && next.Keys == operations.Keys
    requires forall h :: h in operations ==>
               next[h] == Bumped(operations[h], OwnedBy(e, h) || Unowned(e), OwnedBy(e, h), e.Fault? || Unowned(e))
    ensures Accounts(next, marks, log + [e])
  {
    hide Explains, OwnedBy, Unowned, Bumped;
    forall h | h in next ensures Explains(next[h], h, marks[h], log + [e]) {
      ExplainsNext(operations[h], h, marks[h], log, e);
    }
  }

  lemma AccountsDrop(operations: map<Handle, ActiveOperation>, marks: map<Handle, Mark>, log: seq<Entry>, h: Handle)
    requires Accounts(operations, marks, log)
    ensures Accounts(operations - {h}, marks - {h}, log)
  {
    hide Explains;
  }

  lemma AccountsStart(operations: map<Handle, ActiveOperation>, marks: map<Handle, Mark>, log: seq<Entry>, h: Handle,
                      startSequence: nat, incomplete: bool)
    requires Accounts(operations, marks, log)
    ensures Accounts(operations[h := ActiveOperation(startSequence, 0, 0, incomplete)],
                     marks[h := Mark(|log|, startSequence, incomplete)], log)
  {
    var mark := Mark(|log|, startSequence, incomplete);
    assert Explains(ActiveOperation(startSequence, 0, 0, incomplete), h, mark, log) by { assert log[|log|..] == []; }
    hide Explains;
  }

  function SeenAll(events: seq<Event>, observations: map<Handle, ActiveObservation>): (r: seq<Entry>)
    ensures |r| == |events|
  {
    seq(|events|, i requires 0 <= i < |events| => Seen(events[i], observations))
  }

  /** What one drain adds to the history. */
  function Drained(runtime: bool, events: seq<Event>, observations: map<Handle, ActiveObservation>,
                   healthy: bool): seq<Entry> {
    if !runtime then [Fault] else SeenAll(events, observations) + (if healthy then [] else [Fault])
  }

  function Without(observations: map<Handle, ActiveObservation>, operation: Handle): map<Handle, ActiveObservation> {
    map h | h in observations && observations[h].operation != operation :: observations[h]
  }

  /** The coverage verdict that a stretch of history deserves. */
  ghost function Verdict(mark: Mark, operation: Handle, log: seq<Entry>, healthy: bool, endSequence: nat): Coverage {
    if Clean(log) && !mark.incomplete && healthy && mark.startSequence <= endSequence then
      CleanKernelTrace(mark.startSequence, endSequence, Min(OwnedCount(log, operation), U64_MAX),
                       Min(OwnedCount(log, operation), U64_MAX))
    else Incomplete
  }

  function CoverageResult(operation: ActiveOperation, healthy: bool, endSequence: nat): Coverage {
    if operation.incomplete || !healthy || operation.ownedEvents > operation.relevantEvents
       || endSequence < operation.startSequence then
      Incomplete
    else CleanKernelTrace(operation.startSequence, endSequence, operation.relevantEvents, operation.ownedEvents)
  }

  /** The counters tell exactly what the history tells; the branch for owned > relevant is never the reason. */
  lemma ResultIsVerdict(op: ActiveOperation, operation: Handle, mark: Mark, log: seq<Entry>, healthy: bool,
                        endSequence: nat)
    requires Explains(op, operation, mark, log)
    ensures op.ownedEvents <= op.relevantEvents
    ensures CoverageResult(op, healthy, endSequence) == Verdict(mark, operation, log[mark.at..], healthy, endSequence)
  {
    if Clean(log[mark.at..]) {
      CleanHasNoUnowned(log[mark.at..]);
    }
  }

  /** A clean verdict accounts for every event of the operation's lifetime. */
  lemma CleanAccountsForAll(mark: Mark, operation: Handle, log: seq<Entry>, healthy: bool, endSequence: nat)
    requires Verdict(mark, operation, log, healthy, endSequence).CleanKernelTrace?
    ensures forall i :: 0 <= i < |log| ==> log[i].Seen?
    ensures forall i :: 0 <= i < |log| && !log[i].event.effect.kind.Exit? ==>
              exists h :: SoleOwner(log[i].observations, log[i].event, h)
    ensures forall i :: 0 <= i < |log| ==> !log[i].event.effect.kind.Process?
  {
    forall i | 0 <= i < |log|
      ensures log[i].Seen? && !log[i].event.effect.kind.Process?
      ensures !log[i].event.effect.kind.Exit? ==> exists h :: SoleOwner(log[i].observations, log[i].event, h)
    {
      assert log[i] in log;
    }
  }

  ghost predicate Accounted(e: Entry) {
    e.Seen? && (e.event.effect.kind.Exit? || exists h :: SoleOwner(e.observations, e.event, h))
  }

  /** The log of an operation's lifetime when the controller was given what the channel drained since number `from`. */
  ghost predicate Fed(log: seq<Entry>, drained: seq<Event>, from: nat) {
    from + |log| == |drained| && forall i :: 0 <= i < |log| && log[i].Seen? ==> log[i].event == drained[from + i]
  }

  /**
   * Channel and controller together: if the verdict over a drained channel is clean, then every effect that
   * the tracer was asked to emit in the operation's lifetime is in the log under its own number, in order,
   * and has a sole owner.
   */
  lemma CleanMissesNoEffect(s: EventChannel.State, mark: Mark, operation: Handle, log: seq<Entry>, from: nat,
                            endSequence: nat)
    requires EventChannel.Reachable(s) && s.emitter.Resting? && s.pipe == [] && Fed(log, s.drained, from)
    requires Verdict(mark, operation, log, !s.overflowed, endSequence).CleanKernelTrace?
    ensures from + |log| == |s.requested|
    ensures forall i :: 0 <= i < |log| ==>
              log[i] == Seen(EventChannel.Event(s.requested[from + i], from + i + 1), log[i].observations)
    ensures forall i :: 0 <= i < |log| ==> Accounted(log[i])
  {
    CleanAccountsForAll(mark, operation, log, !s.overflowed, endSequence);
    EventChannel.HealthyIsComplete(s);
    EventChannel.DrainedIsGapFree(s);
    forall i | 0 <= i < |log|
      ensures log[i].Seen? && log[i].event == EventChannel.Event(s.requested[from + i], from + i + 1)
      ensures Accounted(log[i])
    {
      assert s.drained == s.written && log[i].event == s.drained[from + i];
    }
  }

  // ---- conservation of events ----------------------------------------------------------------------

  ghost function EventCount(log: seq<Entry>): nat {
    if log == [] then 0 else EventCount(log[..|log| - 1]) + (if Counts(log[|log| - 1]) then 1 else 0)
  }

  ghost function OwnedCounts(log: seq<Entry>, operations: set<Handle>): map<Handle, nat> {
    map h | h in operations :: OwnedCount(log, h)
  }

  /** Every event that is attributed at all is attributed to one of these operations. */
  ghost predicate AttributedTo(log: seq<Entry>, operations: set<Handle>) {
    forall e, h :: e in log && OwnedBy(e, h) ==> h in operations
  }

  lemma OneOperation(e: Entry, a: Handle, b: Handle)
    requires OwnedBy(e, a) && OwnedBy(e, b)
    ensures a == b
  {
    var x :| SoleOwner(e.observations, e.event, x) && e.observations[x].operation == a;
    var y :| SoleOwner(e.observations, e.event, y) && e.observations[y].operation == b;
    SoleOwnerIsCandidate(e.observations, e.event, x);
    SoleOwnerIsCandidate(e.observations, e.event, y);
    assert x in {y};
  }

  /** Every event except Exit is attributed to exactly one operation or to none: none is counted twice or lost. */
  lemma {:induction false} EventsAreConserved(log: seq<Entry>, operations: set<Handle>)
    requires AttributedTo(log, operations)
    ensures Sum(OwnedCounts(log, operations)) + UnownedCount(log) == EventCount(log)
    decreases |log|
  {
    if log == [] {
      SumOfZeros(OwnedCounts(log, operations));
    } else {
      var init, e := log[..|log| - 1], log[|log| - 1];
      assert log == init + [e] && forall x :: x in init ==> x in log;
      EventsAreConserved(init, operations);
      OneMore(init, e, operations);
    }
  }

  lemma OneMore(init: seq<Entry>, e: Entry, operations: set<Handle>)
    requires AttributedTo(init + [e], operations)
    ensures Sum(OwnedCounts(init + [e], operations))
         == Sum(OwnedCounts(init, operations)) + (if Counts(e) && !Unowned(e) then 1 else 0)
  {
    hide SoleOwner, Sum, OwnedCount, UnownedCount;
    forall h ensures OwnedCount(init + [e], h) == OwnedCount(init, h) + (if OwnedBy(e, h) then 1 else 0) {
      CountsAppend(init, e, h);
    }
    var before := OwnedCounts(init, operations);
    if Counts(e) && !Unowned(e) {
      SomeoneOwns(e);
      var o :| OwnedBy(e, o);
      assert e in init + [e];
      forall h | OwnedBy(e, h) ensures h == o { OneOperation(e, h, o); }
      assert OwnedCounts(init + [e], operations) == before[o := before[o] + 1];
      SumUpdate(before, o, before[o] + 1);
    } else {
      assert OwnedCounts(init + [e], operations) == before;
    }
  }

  lemma SomeoneOwns(e: Entry)
    requires Counts(e) && !Unowned(e)
    ensures exists o :: OwnedBy(e, o)
  {
    var h :| SoleOwner(e.observations, e.event, h);
    assert OwnedBy(e, e.observations[h].operation);
  }

  lemma {:induction false} SumOfZeros(m: map<Handle, nat>)
    requires forall h :: h in m ==> m[h] == 0
    ensures Sum(m) == 0
    decreases |m|
  {
    if m != map[] {
      var h := SomeElement(m.Keys);
      SumSplit(m, h);
      SumOfZeros(m - {h});
    }
  }

  /** Once incomplete, an operation stays incomplete until it ends, however the history goes on. */
  lemma IncompleteIsSticky(op: ActiveOperation, later: ActiveOperation, operation: Handle, mark: Mark, log: seq<Entry>,
                           more: seq<Entry>)
    requires Explains(op, operation, mark, log) && Explains(later, operation, mark, log + more)
    ensures op.incomplete ==> later.incomplete
    ensures op.ownedEvents <= later.ownedEvents
  {
    assert (log + more)[mark.at..] == log[mark.at..] + more;
    forall e | e in log[mark.at..] ensures e in log[mark.at..] + more {}
    CountsGrow(log[mark.at..], more, operation);
  }

  lemma {:induction false} CountsGrow(log: seq<Entry>, more: seq<Entry>, operation: Handle)
    ensures OwnedCount(log, operation) <= OwnedCount(log + more, operation)
    decreases |more|
  {
    if more == [] {
      assert log + more == log;
    } else {
      var init := more[..|more| - 1];
      CountsGrow(log, init, operation);
      assert log + more == (log + init) + [more[|more| - 1]];
      CountsAppend(log + init, more[|more| - 1], operation);
    }
  }

  // ---- the controller ------------------------------------------------------------------------------

  class Controller {
    var observations: map<Handle, ActiveObservation>
    var operations: map<Handle, ActiveOperation>
    var engineCount: nat
    var runtime: bool
    ghost var log: seq<Entry>
    ghost var marks: map<Handle, Mark>

    ghost predicate Valid()
      reads this
    {
      && Accounts(operations, marks, log)
      && |operations| <= MAX_ACTIVE_OPERATIONS && |observations| <= MAX_ACTIVE_OBSERVATIONS
      && engineCount <= U64_MAX
    }

    constructor ()
      ensures Valid() && operations == map[] && observations == map[] && !runtime && engineCount == 0 && log == []
    {
      observations, operations, engineCount, runtime := map[], map[], 0, false;
      log, marks := [], map[];
    }

    method MarkAllIncomplete()
      requires Valid()
      modifies this`operations, this`log
      ensures Valid() && log == old(log) + [Fault]
      ensures operations.Keys == old(operations).Keys
    {
      operations := map h | h in operations :: operations[h].(incomplete := true);
      assert operations.Keys == old(operations).Keys;
      AccountsNext(old(operations), operations, marks, log, Fault);
      log := log + [Fault];
    }

    method ApplyEvent(event: Event)
      requires Valid()
      modifies this`operations, this`log
      ensures Valid() && log == old(log) + [Seen(event, observations)]
      ensures operations.Keys == old(operations).Keys
    {
      hide Explains, SoleOwner;
      ghost var e := Seen(event, observations);
      OneCandidateIffSoleOwner(observations, event);
      if event.effect.kind == EventKind.Exit {
        AccountsNext(operations, operations, marks, log, e);
        log := log + [e];
        return;
      }
      var owners := Candidates(observations, event);
      if |owners| == 1 {
        var o := SomeMember(owners);
        var owner := observations[o].operation;
        if owner in operations {
          var operation := operations[owner];
          operations := operations[owner := operation.(relevantEvents := SatAdd(operation.relevantEvents, 1),
                                                       ownedEvents := SatAdd(operation.ownedEvents, 1))];
        }
        assert owners == {o} by { Singleton(owners, o); }
        forall h ensures OwnedBy(e, h) <==> h == owner {
          LoneCandidateOwns(observations, event, o);
        }
        AccountsNext(old(operations), operations, marks, log, e);
        log := log + [e];
        return;
      }
      operations := map h | h in operations ::
        operations[h].(relevantEvents := SatAdd(operations[h].relevantEvents, 1), incomplete := true);
      assert operations.Keys == old(operations).Keys;
      AccountsNext(old(operations), operations, marks, log, e);
      log := log + [e];
    }

    /** Reads batches until one is short, then checks the runtime's health. */
    method Drain(arrived: seq<Event>, healthy: bool)
      requires Valid()
      modifies this`operations, this`log
      ensures Valid() && log == old(log) + Drained(runtime, arrived, observations, healthy)
      ensures operations.Keys == old(operations).Keys
    {
      hide Accounts;
      if !runtime {
        MarkAllIncomplete();
        return;
      }
      var read := 0;
      while true
        invariant Valid() && 0 <= read <= |arrived|
        invariant log == old(log) + SeenAll(arrived[..read], observations) && operations.Keys == old(operations).Keys
        decreases |arrived| - read + 1
      {
        var count := Min(DRAIN_BATCH, |arrived| - read);
        ghost var start := read;
        for i := 0 to count
          invariant Valid() && read == start + i
          invariant log == old(log) + SeenAll(arrived[..read], observations) && operations.Keys == old(operations).Keys
        {
          ApplyEvent(arrived[read]);
          read := read + 1;
          assert SeenAll(arrived[..read], observations)
                 == SeenAll(arrived[..read - 1], observations) + [Seen(arrived[read - 1], observations)];
        }
        if count < DRAIN_BATCH {
          break;
        }
      }
      assert arrived[..read] == arrived;
      if !healthy {
        MarkAllIncomplete();
      }
    }

    /** `healthy`, `healthyAtStart` and `sequence` are what the runtime answers during this call. */
    method OperationStarted(handle: Handle, arrived: seq<Event>, healthy: bool, sequence: nat, healthyAtStart: bool)
      requires Valid()
      modifies this`operations, this`log, this`marks
      ensures Valid()
      ensures var drained := old(log) + Drained(runtime, arrived, observations, healthy);
              if |old(operations)| >= MAX_ACTIVE_OPERATIONS then log == drained + [Fault] && marks == old(marks)
              else (log == drained
                    && marks == old(marks)[handle := Mark(|drained|, if runtime then sequence else 0,
                                                          !runtime || !healthyAtStart)])
    {
      hide Accounts, Drained;
      Drain(arrived, healthy);
      assert |operations| == |old(operations)| by { SameSize(operations, old(operations)); }
      if |operations| >= MAX_ACTIVE_OPERATIONS {
        MarkAllIncomplete();
        return;
      }
      var startSequence, incomplete := 0, true;
      if runtime {
        startSequence, incomplete := sequence, !healthyAtStart;
      }
      AccountsStart(operations, marks, log, handle, startSequence, incomplete);
      operations := operations[handle := ActiveOperation(startSequence, 0, 0, incomplete)];
      marks := marks[handle := Mark(|log|, startSequence, incomplete)];
    }

    method OperationFinished(handle: Handle, arrived: seq<Event>, healthy: bool, healthyAtEnd: bool, sequence: nat)
      returns (coverage: Coverage)
      requires Valid()
      modifies this`operations, this`observations, this`log, this`marks
      ensures Valid()
      ensures log == old(log) + Drained(runtime, arrived, old(observations), healthy)
      ensures observations == Without(old(observations), handle)
      ensures marks == old(marks) - {handle}
      ensures coverage == if handle !in old(marks) then Incomplete
                          else Verdict(old(marks)[handle], handle, log[old(marks)[handle].at..],
                                       runtime && healthyAtEnd, if runtime then sequence else 0)
    {
      hide Explains, Drained, Clean, OwnedCount, UnownedCount, CoverageResult, Verdict, Without;
      Drain(arrived, healthy);
      WithoutSize(observations, handle);
      observations := Without(observations, handle);
      if handle !in operations {
        assert marks - {handle} == marks;
        return Incomplete;
      }
      var operation := operations[handle];
      ResultIsVerdict(operation, handle, marks[handle], log, runtime && healthyAtEnd, if runtime then sequence else 0);
      AccountsDrop(operations, marks, log, handle);
      operations := operations - {handle};
      marks := marks - {handle};
      coverage := CoverageResult(operation, runtime && healthyAtEnd, if runtime then sequence else 0);
    }

    method OperationRemoved(handle: Handle, arrived: seq<Event>, healthy: bool)
      requires Valid()
      modifies this`operations, this`observations, this`log, this`marks
      ensures Valid()
      ensures log == old(log) + Drained(runtime, arrived, old(observations), healthy)
      ensures observations == Without(old(observations), handle)
      ensures marks == old(marks) - {handle}
    {
      hide Explains, Drained, Without;
      Drain(arrived, healthy);
      WithoutSize(observations, handle);
      observations := Without(observations, handle);
      AccountsDrop(operations, marks, log, handle);
      operations := operations - {handle};
      marks := marks - {handle};
    }

    method ObservationOpened(handle: Handle, operation: Handle, class_: ObservationClass, arrived: seq<Event>,
                             healthy: bool)
      requires Valid()
      modifies this`operations, this`observations, this`log
      ensures Valid()
      ensures var drained := old(log) + Drained(runtime, arrived, old(observations), healthy);
              if |old(observations)| >= MAX_ACTIVE_OBSERVATIONS then
                log == drained + [Fault] && observations == old(observations)
              else
                && log == drained
                && observations == old(observations)[handle := ActiveObservation(operation, class_, 0, false)]
    {
      hide Accounts, Drained;
      Drain(arrived, healthy);
      if |observations| >= MAX_ACTIVE_OBSERVATIONS {
        MarkAllIncomplete();
        return;
      }
      observations := observations[handle := ActiveObservation(operation, class_, 0, false)];
    }

    method ObservationDispatched(handle: Handle, thread: int, arrived: seq<Event>, healthy: bool)
      requires Valid()
      modifies this`operations, this`observations, this`log
      ensures Valid()
      ensures var drained := old(log) + Drained(runtime, arrived, old(observations), healthy);
              if handle !in old(observations) then log == drained + [Fault] && observations == old(observations)
              else (log == drained
                    && observations
                       == old(observations)[handle := old(observations)[handle].(thread := thread, dispatched := true)])
    {
      hide Accounts, Drained;
      Drain(arrived, healthy);
      if handle !in observations {
        MarkAllIncomplete();
        return;
      }
      observations := observations[handle := observations[handle].(thread := thread, dispatched := true)];
    }

    method ObservationFinished(handle: Handle, arrived: seq<Event>, healthy: bool)
      requires Valid()
      modifies this`operations, this`observations, this`log
      ensures Valid()
      ensures observations == old(observations) - {handle}
      ensures log == old(log) + Drained(runtime, arrived, old(observations), healthy)
              + (if handle in old(observations) then [] else [Fault])
    {
      hide Accounts, Drained;
      Drain(arrived, healthy);
      if handle in observations {
        observations := observations - {handle};
        assert |observations| <= |old(observations)| by { Shrinks(old(observations), handle); }
      } else {
        assert observations - {handle} == observations;
        MarkAllIncomplete();
      }
    }

    method EngineOpened(installed: bool)
      requires Valid()
      modifies this`engineCount, this`runtime
      ensures Valid() && engineCount == SatAdd(old(engineCount), 1) && runtime == (old(runtime) || installed)
    {
      engineCount := SatAdd(engineCount, 1);
      if !runtime {
        runtime := installed;
      }
    }

    /** Closing the last engine forgets every operation and gives the runtime up. */
    method EngineClosed()
      requires Valid()
      modifies this
      ensures Valid() && engineCount == SatSub(old(engineCount), 1)
      ensures if engineCount == 0 then operations == map[] && observations == map[] && !runtime
              else operations == old(operations) && observations == old(observations) && runtime == old(runtime)
    {
      engineCount := SatSub(engineCount, 1);
      if engineCount == 0 {
        MarkAllIncomplete();
        observations, operations, runtime := map[], map[], false;
        marks := map[];
      }
    }
  }

  lemma SameSize<K, V, W>(a: map<K, V>, b: map<K, W>)
    requires a.Keys == b.Keys
    ensures |a| == |b|
  {
    assert |a.Keys| == |a| && |b.Keys| == |b|;
  }

  lemma Shrinks<K, V>(m: map<K, V>, k: K)
    ensures |m - {k}| <= |m|
  {
    assert m.Keys == (m - {k}).Keys + (if k in m then {k} else {});
  }

  lemma WithoutSize(observations: map<Handle, ActiveObservation>, operation: Handle)
    ensures |Without(observations, operation)| <= |observations|
  {
    var kept := Without(observations, operation);
    assert observations.Keys == kept.Keys + (observations.Keys - kept.Keys);
  }

  method SomeMember<T(==)>(s: set<T>) returns (x: T)
    requires |s| == 1
    ensures x in s
  {
    assert s != {};
    x :| x in s;
  }
}
