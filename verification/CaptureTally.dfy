// The recall counters of an Sdk, told from what happened: each counts the calls that ended its way.

module CaptureTally {
  import opened Arith
  import opened CandidateEntries
  import opened CaptureRuns
  import opened CaptureLaws
  import opened Ledger
  import opened MapSums
  import opened Options
  import opened Records
  import opened Sections
  import opened StormGate
  import Y = CaptureStory

  /** How many failures were seen, how many ended in each way, and how many operations were abandoned. */
  datatype Tally = Tally(seen: nat, again: nat, many: nat, full: nat, abandoned: nat)

  const NOTHING: Tally := Tally(0, 0, 0, 0, 0)

  /** The outcome of the call of an Sdk that this step has ended. */
  function Ended(d: SdkState, d': SdkState): Option<FailOutcome> {
    if Carries(d.phase) && d'.phase.Free? && d.phase.call in d'.outcomes then Some(d'.outcomes[d.phase.call]) else None
  }

  function Tallied(c: Tally, outcome: FailOutcome): Tally {
    match outcome
    case Suppressed(SuppressedExact) => c.(again := c.again + 1)
    case Suppressed(_) => c.(many := c.many + 1)
    case QueueFull => c.(full := c.full + 1)
    case _ => c
  }

  /** One step as the Sdk `k` sees it. */
  function Count(c: Tally, s: State, s': State, step: Step, k: Id): Tally {
    if k !in s.sdks || k !in s'.sdks then NOTHING
    else
      match step
      case Observe(j) => if j == k then c.(seen := c.seen + 1) else c
      case Forget(j, id, counted) =>
        if j == k && counted && id in s.sdks[k].operations then c.(abandoned := c.abandoned + 1) else c
      case _ =>
        var outcome := Ended(s.sdks[k], s'.sdks[k]);
        if outcome.Some? then Tallied(c, outcome.value) else c
  }

  ghost function CountAll(c: Tally, s: State, steps: seq<Step>, k: Id): Tally
    requires Legal(s, steps)
    decreases |steps|
  {
    if steps == [] then c
    else CountAll(Count(c, s, Apply(s, steps[0]), steps[0], k), Apply(s, steps[0]), steps[1..], k)
  }

  function Recalled(c: Tally): Recall {
    Recall(Min(c.seen, U64_MAX), Min(c.again, U64_MAX), Min(c.many, U64_MAX), Min(c.full, U64_MAX),
           Min(c.abandoned, U64_MAX))
  }

  predicate CountsTrue(c: Tally, s: State, k: Id) {
    if k in s.sdks then s.sdks[k].recall == Recalled(c) else c == NOTHING
  }

  /** Sections that neither end a call nor count. */
  predicate Silent(d: SdkState, d': SdkState) {
    d'.recall == d.recall && (Carries(d.phase) ==> !d'.phase.Free?)
  }

  lemma ConcludingCounts(d: SdkState, outcome: FailOutcome, c: Tally)
    requires Carries(d.phase) && d.recall == Recalled(c)
    ensures var d' := Concluded(d, d.phase.call, outcome);
            Ended(d, d') == Some(outcome) && d'.recall == Recalled(Tallied(c, outcome))
  {
  }

  /** A section of a call ends it with an outcome or goes on. */
  lemma SectionsConclude(d: SdkState, b: Books, decision: Decision) returns (outcome: FailOutcome)
    requires d.phase.Sealed? || d.phase.Passed? || d.phase.Checked?
    ensures var d' := if d.phase.Sealed? then AdmitSection(d, decision)
                      else if d.phase.Passed? then HandOffSection(d, b).sdk else SettleSection(d, b).sdk;
            d' == Concluded(d, d.phase.call, outcome) || (d'.recall == d.recall && !d'.phase.Free?)
  {
    hide Concluded, Entered, Returned, MayHandOff;
    outcome := if d.phase.Sealed? then (if decision.Admitted? then Rejected else Suppressed(decision))
               else if d.phase.Passed? then QueueFull
               else if d.phase.sent && (d.sink.PlainSink? || d.phase.retained) then Delivered else Refused;
  }

  lemma CallCounts(s: State, step: Step, c: Tally)
    requires step.Admit? || step.HandOff? || step.Settle?
    requires Enabled(s, step) && CountsTrue(c, s, step.sdk)
    ensures CountsTrue(Count(c, s, Apply(s, step), step, step.sdk), Apply(s, step), step.sdk)
  {
    assert step.sdk in s.sdks;
    Y.CallIs(s, step);
    var d := s.sdks[step.sdk];
    var decision := if step.Admit? then Decide(s.admissions, d.phase.storm, step.now) else Admitted;
    var outcome := SectionsConclude(d, s.books, decision);
    ConcludingCounts(d, outcome, c);
    hide Enabled, Apply, AdmitSection, HandOffSection, SettleSection, Concluded, Recalled, Tallied;
  }

  lemma CallIsSilent(s: State, step: Step)
    requires step.Claim? || step.Keep? || step.Answer? || step.GiveUp? || step.Check?
    requires Enabled(s, step)
    ensures step.sdk in s.sdks && step.sdk in Apply(s, step).sdks
            && Silent(s.sdks[step.sdk], Apply(s, step).sdks[step.sdk])
  {
    hide Claimed, Claimable, Returned, Removed, IsRetained;
  }

  lemma TableCounts(s: State, step: Step, c: Tally)
    requires step.Observe? || step.Forget? || step.Remove?
    requires Enabled(s, step) && CountsTrue(c, s, step.sdk)
    ensures CountsTrue(Count(c, s, Apply(s, step), step, step.sdk), Apply(s, step), step.sdk)
  {
    hide Released, Seal, Restarted, Removed;
  }

  lemma TableIsSilent(s: State, step: Step)
    requires step.BeginStep? || step.Bind? || step.Append? || step.Drop? || step.Number? || step.StartEnd?
             || step.EndOne?
    requires Enabled(s, step)
    ensures step.sdk in s.sdks && step.sdk in Apply(s, step).sdks
            && Silent(s.sdks[step.sdk], Apply(s, step).sdks[step.sdk])
  {
    hide Released, Reserved, Grown, Restarted, Appended, Removed, OwnerAfter;
  }

  /** A step leaves every other Sdk as it was. */
  predicate Leaves(s: State, s': State, k: Id) {
    (k in s.sdks <==> k in s'.sdks) && (k in s.sdks ==> s'.sdks[k] == s.sdks[k])
  }

  predicate OfNoSdk(step: Step) {
    step.Take? || step.ReleaseTaken? || step.EndRecorder? || step.NewRecorder? || step.PutElsewhere?
    || step.ReleaseElsewhere?
  }

  lemma OtherParty(s: State, step: Step, k: Id)
    requires Enabled(s, step) && OfNoSdk(step)
    ensures Leaves(s, Apply(s, step), k)
  {
    hide Returned, Entered, TakeSection;
  }

  lemma OtherTable(s: State, step: Step, k: Id)
    requires Enabled(s, step)
    requires step.NewSdk? || step.BeginStep? || step.Bind? || step.Append? || step.Drop? || step.Forget?
             || step.Observe?
             || step.Number? || step.Remove? || step.StartEnd? || step.EndOne? || step.End?
    requires step.sdk != k
    ensures Leaves(s, Apply(s, step), k)
  {
    hide BeginSection, AppendSection, NumberSection, RemoveSection, BindSection, DropSection, ForgetSection,
        ObserveSection,
      WithoutOperation, Released, OwnerAfter;
  }

  lemma OtherCall(s: State, step: Step, k: Id)
    requires Enabled(s, step)
    requires step.Admit? || step.HandOff? || step.Claim? || step.Keep? || step.Answer? || step.GiveUp? || step.Check?
             || step.Settle?
    requires step.sdk != k
    ensures Leaves(s, Apply(s, step), k)
  {
    hide AdmitSection, HandOffSection, ClaimSection, AnswerSection, GiveUpSection, CheckSection, SettleSection,
        KeepSection,
      Decide;
  }

  lemma StepCounts(s: State, step: Step, k: Id, c: Tally)
    requires Enabled(s, step) && CountsTrue(c, s, k)
    ensures CountsTrue(Count(c, s, Apply(s, step), step, k), Apply(s, step), k)
  {
    if OfNoSdk(step) {
      OtherParty(s, step, k);
      hide Apply, Enabled;
    } else if step.sdk != k {
      if step.Admit? || step.HandOff? || step.Claim? || step.Keep? || step.Answer? || step.GiveUp? || step.Check?
         || step.Settle? {
        OtherCall(s, step, k);
      } else {
        OtherTable(s, step, k);
      }
      hide Apply, Enabled;
    } else if step.Observe? || step.Forget? || step.Remove? {
      TableCounts(s, step, c);
    } else if step.Admit? || step.HandOff? || step.Settle? {
      CallCounts(s, step, c);
    } else if step.Claim? || step.Keep? || step.Answer? || step.GiveUp? || step.Check? {
      CallIsSilent(s, step);
      hide Apply, Enabled;
    } else if step.NewSdk? || step.End? {
    } else {
      TableIsSilent(s, step);
      hide Apply, Enabled;
    }
  }

  lemma {:induction false} RunCounts(s: State, steps: seq<Step>, k: Id, c: Tally)
    requires Legal(s, steps) && CountsTrue(c, s, k)
    ensures CountsTrue(CountAll(c, s, steps, k), Run(s, steps), k)
    decreases |steps|
  {
    hide Apply, Enabled, Count, CountsTrue;
    if steps != [] {
      StepCounts(s, steps[0], k, c);
      RunCounts(Apply(s, steps[0]), steps[1..], k, Count(c, s, Apply(s, steps[0]), steps[0], k));
    }
  }

  /** In every run each recall counter of an Sdk is the number of times its event happened, up to saturation. */
  lemma CountersAreTrue(steps: seq<Step>, k: Id)
    requires Legal(Init(), steps) && k in Run(Init(), steps).sdks
    ensures Run(Init(), steps).sdks[k].recall == Recalled(CountAll(NOTHING, Init(), steps, k))
  {
    RunCounts(Init(), steps, k, NOTHING);
  }

  /**
   * What the storm gate makes of a sealed candidate: an identity admitted in the last minute is suppressed, so is
   * one that some window has no room for, and any other passes on if it could be encoded.
   */
  lemma AdmitVerdict(s: State, k: Id, now: nat)
    requires Enabled(s, Admit(k, now))
    ensures var d, s' := s.sdks[k], Apply(s, Admit(k, now));
            var d', call := s'.sdks[k], d.phase.call;
            if RecentlyAdmitted(s.admissions, d.phase.storm, now) then
              d'.phase.Free? && call in d'.outcomes && d'.outcomes[call] == Suppressed(SuppressedExact)
              && s'.admissions == s.admissions
            else if !Admits(s.admissions, d.phase.storm, now) then
              d'.phase.Free? && call in d'.outcomes && d'.outcomes[call] == Suppressed(SuppressedHighCardinality)
              && s'.admissions == s.admissions
            else
              && s'.admissions == s.admissions + [Admission(d.phase.storm, now)]
              && if d.phase.candidate.canonicalLength.Some? then d'.phase == Passed(call, d.phase.candidate)
                 else d'.phase.Free? && call in d'.outcomes && d'.outcomes[call] == Rejected
  {
    hide RecentlyAdmitted, Admits;
  }
}
