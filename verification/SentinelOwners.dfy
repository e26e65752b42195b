// Which observation owns which kernel effect, said without the controller's own tables, and what a
// clean coverage therefore excludes.

module SentinelOwners {
  import opened Arith
  import opened Classes
  import opened Options
  import opened Sentinel
  import EventChannel
  import Semantics

  /** The semantic dependencies: their transcript stands for every kernel effect below them. */
  const DEPENDENCIES: set<ObservationClass> :=
        {ObservationClass.Database, ObservationClass.OutboundHttp, ObservationClass.Queue}

  /** The effects of the system calls that are traced; processes and exits are not of this kind. */
  const TRACED_EFFECTS: set<EventKind> :=
    {EventKind.Filesystem, EventKind.Network, EventKind.Clock, EventKind.Randomness}

  /** The one kind of effect that a class observes itself. */
  function OwnKind(class_: ObservationClass): Option<EventKind> {
    match class_
    case Clock => Some(EventKind.Clock)
    case Filesystem => Some(EventKind.Filesystem)
    case Randomness => Some(EventKind.Randomness)
    case _ => None
  }

  /** A dependency owns every traced effect; any other class owns its own kind, exactly, and nothing else. */
  lemma OwnershipTable(kind: EventKind, class_: ObservationClass)
    ensures IsExactlyOwnedBy(kind, class_) <==> OwnKind(class_) == Some(kind)
    ensures IsOwnedBy(kind, class_) <==>
            if class_ in DEPENDENCIES then kind in TRACED_EFFECTS else OwnKind(class_) == Some(kind)
    ensures class_ in DEPENDENCIES <==> Semantics.ContractFor(class_).Dependency?
  {
  }

  /** The observation is dispatched on the thread of the event. */
  predicate OnThread(e: Entry, h: Handle) {
    e.Seen? && h in e.observations && e.observations[h].dispatched && e.observations[h].thread == e.event.effect.thread
  }

  /** It observes this kind of effect itself. */
  predicate Observes(e: Entry, h: Handle) {
    OnThread(e, h) && OwnKind(e.observations[h].class_) == Some(e.event.effect.kind)
  }

  /** It is a dependency above this effect. */
  predicate StandsAbove(e: Entry, h: Handle) {
    OnThread(e, h) && e.observations[h].class_ in DEPENDENCIES && e.event.effect.kind in TRACED_EFFECTS
  }

  /**
   * The sole owner of an event is the only observation on its thread that observes its kind; where none
   * does, it is the only dependency on the thread.
   */
  lemma SoleOwnerIs(e: Entry, h: Handle)
    requires e.Seen?
    ensures SoleOwner(e.observations, e.event, h) <==>
            || (Observes(e, h) && forall other :: Observes(e, other) ==> other == h)
            || (StandsAbove(e, h) && (forall other :: !Observes(e, other)) && forall other :: StandsAbove(e, other) ==>
                  other == h)
  {
    MatchesIs(e);
    hide Matches, Observes, StandsAbove;
    if SoleOwner(e.observations, e.event, h) {
      forall other | Observes(e, other) ensures other == h {
        assert other in e.observations;
      }
      forall other | StandsAbove(e, other) && !Observes(e, h) ensures other == h {
        assert other in e.observations;
      }
    }
  }

  lemma MatchesIs(e: Entry)
    requires e.Seen?
    ensures forall h :: Observes(e, h) ==> h in e.observations && !StandsAbove(e, h)
    ensures forall h :: StandsAbove(e, h) ==> h in e.observations
    ensures forall h :: h in e.observations ==>
              && (Matches(e.observations[h], e.event, true) <==> Observes(e, h))
              && (Matches(e.observations[h], e.event, false) <==> Observes(e, h) || StandsAbove(e, h))
  {
    forall h | h in e.observations
      ensures Matches(e.observations[h], e.event, true) <==> Observes(e, h)
      ensures Matches(e.observations[h], e.event, false) <==> Observes(e, h) || StandsAbove(e, h)
    {
      OwnershipTable(e.event.effect.kind, e.observations[h].class_);
    }
  }

  /** A lone dependency on the thread of a traced effect that nobody there observes is its owner. */
  lemma LoneDependencyOwns(e: Entry, h: Handle)
    requires e.Seen? && StandsAbove(e, h) && (forall other :: !Observes(e, other))
    requires forall other :: StandsAbove(e, other) ==> other == h
    ensures OwnedBy(e, e.observations[h].operation) && !Unowned(e)
  {
    SoleOwnerIs(e, h);
    assert e.event.effect.kind in TRACED_EFFECTS;
  }

  /** So such an event never makes an operation incomplete, and counts as owned by the dependency's own operation. */
  lemma LoneDependencyKeepsClean(op: ActiveOperation, later: ActiveOperation, operation: Handle, mark: Mark,
                                 log: seq<Entry>,
                                 e: Entry, h: Handle)
    requires Explains(op, operation, mark, log) && Explains(later, operation, mark, log + [e])
    requires e.Seen? && StandsAbove(e, h) && (forall other :: !Observes(e, other))
    requires forall other :: StandsAbove(e, other) ==> other == h
    ensures later.incomplete == op.incomplete
    ensures later.ownedEvents
            == if e.observations[h].operation == operation then Min(op.ownedEvents + 1, U64_MAX) else op.ownedEvents
  {
    LoneDependencyOwns(e, h);
    assert (log + [e])[mark.at..] == log[mark.at..] + [e];
    CountsAppend(log[mark.at..], e, operation);
    OneOwner(e, operation, h);
    assert forall x :: x in log[mark.at..] + [e] <==> x in log[mark.at..] || x == e;
    hide OwnedBy, Unowned;
  }

  lemma OneOwner(e: Entry, operation: Handle, h: Handle)
    requires e.Seen? && h in e.observations && OwnedBy(e, e.observations[h].operation)
    ensures OwnedBy(e, operation) <==> operation == e.observations[h].operation
  {
    if OwnedBy(e, operation) {
      OneOperation(e, operation, e.observations[h].operation);
    }
  }

  /**
   * A clean coverage names the owner of each event of the operation's lifetime: on its thread there was
   * exactly one observation of its kind, or none and exactly one dependency.
   */
  lemma CleanNamesOwners(mark: Mark, operation: Handle, log: seq<Entry>, healthy: bool, endSequence: nat, i: nat)
    returns (h: Handle)
    requires Verdict(mark, operation, log, healthy, endSequence).CleanKernelTrace?
    requires i < |log| && log[i].Seen? && !log[i].event.effect.kind.Exit?
    ensures Observes(log[i], h) || StandsAbove(log[i], h)
    ensures forall other :: Observes(log[i], other) ==> other == h
    ensures (forall other :: !Observes(log[i], other)) ==> forall other :: StandsAbove(log[i], other) ==> other == h
  {
    var e := log[i];
    assert e in log && !Unowned(e);
    h :| SoleOwner(e.observations, e.event, h);
    SoleOwnerIs(e, h);
  }

  /** In particular it excludes network traffic on a thread without a dispatched dependency. */
  lemma CleanExcludesNetwork(mark: Mark, operation: Handle, log: seq<Entry>, healthy: bool, endSequence: nat, i: nat)
    requires Verdict(mark, operation, log, healthy, endSequence).CleanKernelTrace?
    requires i < |log| && log[i].Seen? && log[i].event.effect.kind.Network?
    ensures exists h :: OnThread(log[i], h) && log[i].observations[h].class_ in DEPENDENCIES
  {
    var h := CleanNamesOwners(mark, operation, log, healthy, endSequence, i);
    assert OnThread(log[i], h);
  }

  /** The entry is not an unaccompanied network effect. */
  ghost predicate NetworkIsOwned(e: Entry) {
    e.Seen? && e.event.effect.kind.Network? ==> exists h :: OnThread(e, h) && e.observations[h].class_ in DEPENDENCIES
  }

  /** Whatever the controller was told before: it answers clean only if no network effect went unaccompanied. */
  method CoverageExcludesNetwork(c: Controller, handle: Handle, arrived: seq<Event>, healthy: bool, healthyAtEnd: bool,
                                 sequence: nat)
    returns (coverage: Coverage)
    requires c.Valid()
    modifies c
    ensures c.Valid()
    ensures coverage.CleanKernelTrace? ==>
              handle in old(c.marks) && old(c.marks)[handle].at <= |c.log|
              && forall i :: old(c.marks)[handle].at <= i < |c.log| ==> NetworkIsOwned(c.log[i])
  {
    ghost var mark := if handle in c.marks then c.marks[handle] else Mark(0, 0, false);
    ghost var runtime := c.runtime;
    coverage := c.OperationFinished(handle, arrived, healthy, healthyAtEnd, sequence);
    if coverage.CleanKernelTrace? {
      ghost var lifetime := c.log[mark.at..];
      forall i | mark.at <= i < |c.log| ensures NetworkIsOwned(c.log[i]) {
        assert lifetime[i - mark.at] == c.log[i];
        if c.log[i].Seen? && c.log[i].event.effect.kind.Network? {
          CleanExcludesNetwork(mark, handle, lifetime, runtime && healthyAtEnd, if runtime then sequence else 0,
                               i - mark.at);
        }
      }
    }
  }

  /** One drain is recorded event by event, in order; it is clean iff the runtime is healthy and every event owned. */
  lemma DrainTellsAll(runtime: bool, events: seq<Event>, observations: map<Handle, ActiveObservation>, healthy: bool)
    ensures var d := Drained(runtime, events, observations, healthy);
            && (runtime ==> |events| <= |d| && forall i :: 0 <= i < |events| ==> d[i] == Seen(events[i], observations))
            && (Fault in d <==> !runtime || !healthy)
            && (Clean(d) <==> runtime && healthy && forall i :: 0 <= i < |events| ==>
                  !Unowned(Seen(events[i], observations)))
            && |d| == (if runtime then |events| else 0) + (if runtime && healthy then 0 else 1)
  {
    hide Unowned;
    var d := Drained(runtime, events, observations, healthy);
    if !runtime || !healthy {
      assert d[|d| - 1] == Fault;
    } else {
      forall i | 0 <= i < |events| ensures Seen(events[i], observations) in d {
        assert d[i] == Seen(events[i], observations);
      }
    }
  }

  /** So an unhealthy drain anywhere in its lifetime leaves an operation without a clean coverage. */
  lemma UnhealthyNeverClean(mark: Mark, operation: Handle, before: seq<Entry>, runtime: bool, events: seq<Event>,
                            observations: map<Handle, ActiveObservation>, after: seq<Entry>, healthy: bool, end: nat)
    requires !runtime || !healthy
    ensures var drained := Drained(runtime, events, observations, healthy);
            forall health :: Verdict(mark, operation, before + drained + after, health, end) == Incomplete
  {
    var drained := Drained(runtime, events, observations, healthy);
    DrainTellsAll(runtime, events, observations, healthy);
    assert Fault in before + drained + after;
    hide Drained;
  }

  /** The observations of an ended operation own nothing any more; those of others stay as they were. */
  lemma EndedOwnsNothing(observations: map<Handle, ActiveObservation>, operation: Handle, event: Event)
    ensures var left := Without(observations, operation);
            && !OwnedBy(Seen(event, left), operation)
            && forall h :: h in observations && observations[h].operation != operation ==>
                 h in left && left[h] == observations[h]
  {
  }
}
