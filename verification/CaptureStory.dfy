// What the records of an operation hold, told from the calls alone: the kind and payload of every event
// that was accepted, in order, and of the failure and the end of a sealed candidate.

module CaptureStory {
  import opened Arith
  import opened CandidateEntries
  import opened CaptureLaws
  import opened CaptureRuns
  import opened Ledger
  import opened MapSums
  import opened Options
  import opened Records
  import opened Sections
  import opened StormGate

  // ---- the story ------------------------------------------------------------------------------------

  type Payload = seq<bv8>

  /** One accepted event. */
  datatype Said = Said(kind: EventKind, payload: Payload)

  /** An operation or a call of one Sdk. */
  datatype Key = Key(sdk: Id, id: Id)

  datatype Beginning = Beginning(captureId: Id, events: seq<Said>)

  /** A failure that was numbered: its operation, its payload, and how many events had been accepted. */
  datatype Failing = Failing(id: Id, payload: Payload, number: nat)

  /** What a sealed candidate is to report. */
  datatype Report = Report(captureId: Id, operationId: Id, events: seq<Said>, failure: Payload, number: nat,
                           terminal: Payload)

  /** The stored operations, the numbered failures, and the candidate of each Sdk's call and in each recorder. */
  datatype Story = Story(operations: map<Key, Beginning>, failures: map<Key, Failing>, sealed: map<Id, Report>,
                         kept: map<Id, Report>)

  const UNTOLD: Story := Story(map[], map[], map[], map[])

  function Plain(payload: Option<Payload>): Payload {
    if payload.Some? then payload.value else []
  }

  function EventsOf(t: Story, key: Key): seq<Said> {
    if key in t.operations then t.operations[key].events else []
  }

  function CaptureOf(t: Story, key: Key): Id {
    if key in t.operations then t.operations[key].captureId else 0
  }

  predicate Stores(s: State, k: Id, id: Id) {
    k in s.sdks && id in s.sdks[k].operations
  }

  function Stored(s: State, k: Id, id: Id): nat {
    if Stores(s, k, id) then |s.sdks[k].operations[id].records| else 0
  }

  predicate Seals(s: State, k: Id) {
    k in s.sdks && s.sdks[k].phase.Sealed?
  }

  predicate Keeping(s: State, r: Id) {
    r in s.recorders && s.recorders[r].candidate.Some?
  }

  /** Whether a call was accepted shows in the state after it; what it said are its arguments. */
  function Hear(t: Story, s: State, s': State, step: Step): Story {
    match step
    case BeginStep(k, id, captureId, payload, _) =>
      if !Stores(s, k, id) && Stores(s', k, id) then
        t.(operations := t.operations[Key(k, id) := Beginning(captureId, [Said(Begin, Plain(payload))])])
      else t
    case Append(k, id, kind, payload) =>
      if Stored(s', k, id) > Stored(s, k, id) then
        t.(operations := t.operations[Key(k, id) := Beginning(CaptureOf(t, Key(k, id)),
                                                              EventsOf(t, Key(k, id)) + [Said(kind, Plain(payload))])])
      else t
    case Number(k, call, id, payload) =>
      if k in s'.sdks && call in s'.sdks[k].numbered then
        t.(failures := t.failures[Key(k, call) := Failing(id, Plain(payload), |EventsOf(t, Key(k, id))|)])
      else t
    case Remove(k, call, encoding) =>
      if Seals(s', k) && Key(k, call) in t.failures then
        var f := t.failures[Key(k, call)];
        t.(sealed := t.sealed[k := Report(CaptureOf(t, Key(k, f.id)), f.id, EventsOf(t, Key(k, f.id)), f.payload,
                                          f.number,
                                          Plain(encoding.terminal))])
      else t
    case Keep(k) =>
      if k in s.sdks && s.sdks[k].sink.RecorderSink? && k in t.sealed
         && !Keeping(s, s.sdks[k].sink.recorder) && Keeping(s', s.sdks[k].sink.recorder) then
        t.(kept := t.kept[s.sdks[k].sink.recorder := t.sealed[k]])
      else t
    case _ => t
  }

  ghost function Listen(t: Story, s: State, steps: seq<Step>): Story
    requires Legal(s, steps)
    decreases |steps|
  {
    if steps == [] then t else Listen(Hear(t, s, Apply(s, steps[0]), steps[0]), Apply(s, steps[0]), steps[1..])
  }

  // ---- what the records are -------------------------------------------------------------------------

  /** The records are these events, numbered from zero. */
  predicate RecordsAre(records: seq<EventRecord>, events: seq<Said>) {
    |records| == |events|
    && forall i :: 0 <= i < |events| ==> records[i] == EventRecord(events[i].kind, events[i].payload, i)
  }

  /** 32 bytes for each event and four for every three of its payload, rounded up without padding. */
  function BytesOf(events: seq<Said>): nat {
    if events == [] then 0
    else BytesOf(events[..|events| - 1]) + (4 * |events[|events| - 1].payload| + 2) / 3 + 32
  }

  /** The candidate holds the events, then the failure, then the end. */
  predicate CandidateIs(c: Candidate, r: Report) {
    var n := |r.events|;
    && c.captureId == r.captureId && c.operationId == r.operationId && |c.records| == n + 2
    && RecordsAre(c.records[..n], r.events)
    && c.records[n] == EventRecord(Failure, r.failure, r.number)
    && c.records[n + 1] == EventRecord(Terminal, r.terminal, n + 1)
  }

  predicate OperationHeard(t: Story, k: Id, d: SdkState, id: Id) {
    id in d.operations ==>
      && Key(k, id) in t.operations
      && RecordsAre(d.operations[id].records, t.operations[Key(k, id)].events)
      && d.operations[id].captureId == t.operations[Key(k, id)].captureId
  }

  predicate FailureHeard(t: Story, k: Id, d: SdkState, call: Call) {
    call in d.numbered ==>
      && Key(k, call) in t.failures
      && var f, n := t.failures[Key(k, call)], d.numbered[call];
         n.operationId == f.id && n.record == EventRecord(Failure, f.payload, f.number)
  }

  predicate CandidateHeard(t: Story, k: Id, d: SdkState) {
    Carries(d.phase) ==> k in t.sealed && CandidateIs(d.phase.candidate, t.sealed[k])
  }

  ghost predicate SdkHeard(t: Story, k: Id, d: SdkState) {
    && (forall id :: OperationHeard(t, k, d, id)) && (forall call :: FailureHeard(t, k, d, call))
    && CandidateHeard(t, k, d)
  }

  predicate RecorderHeard(t: Story, r: Id, rec: RecorderState) {
    rec.candidate.Some? ==> r in t.kept && CandidateIs(rec.candidate.value, t.kept[r])
  }

  ghost predicate Heard(t: Story, s: State) {
    && (forall k :: k in s.sdks ==> SdkHeard(t, k, s.sdks[k]))
    && (forall r :: r in s.recorders ==> RecorderHeard(t, r, s.recorders[r]))
  }

  // ---- sections that say nothing new ----------------------------------------------------------------

  /** Operations, numbered failures and the call's candidate are only forgotten. */
  ghost predicate Forgets(d: SdkState, d': SdkState) {
    && (forall id :: id in d'.operations ==>
          id in d.operations && d'.operations[id].records == d.operations[id].records
          && d'.operations[id].captureId == d.operations[id].captureId)
    && (forall c :: c in d'.numbered ==>
          c in d.numbered && d'.numbered[c].operationId == d.numbered[c].operationId
          && d'.numbered[c].record == d.numbered[c].record)
    && (Carries(d'.phase) ==> Carries(d.phase) && d'.phase.candidate == d.phase.candidate)
  }

  lemma ForgettingIsHeard(t: Story, k: Id, d: SdkState, d': SdkState)
    requires SdkHeard(t, k, d) && Forgets(d, d')
    ensures SdkHeard(t, k, d')
  {
    forall id ensures OperationHeard(t, k, d', id) { assert OperationHeard(t, k, d, id); }
    forall c ensures FailureHeard(t, k, d', c) { assert FailureHeard(t, k, d, c); }
    hide RecordsAre, CandidateIs;
  }

  lemma WithoutForgets(d: SdkState, id: Id)
    requires id in d.operations
    ensures Forgets(d, WithoutOperation(d, id)) && Forgets(d, WithoutOperation(d, id).(phase := Free))
  {
  }

  // ---- sections that say something ------------------------------------------------------------------

  lemma BeginHeard(t: Story, k: Id, d: SdkState, b: Books, id: Id, captureId: Id, payload: Option<Payload>, world: bool)
    requires SdkHeard(t, k, d)
    ensures var d' := BeginSection(d, b, id, captureId, payload, world).sdk;
            if id !in d.operations && id in d'.operations then
              SdkHeard(t.(operations := t.operations[Key(k, id) := Beginning(captureId,
                                                                             [Said(Begin, Plain(payload))])]), k, d')
            else SdkHeard(t, k, d')
  {
    var d' := BeginSection(d, b, id, captureId, payload, world).sdk;
    var t' := t.(operations := t.operations[Key(k, id) := Beginning(captureId, [Said(Begin, Plain(payload))])]);
    if id !in d.operations && id in d'.operations {
      forall x ensures OperationHeard(t', k, d', x) { assert OperationHeard(t, k, d, x); }
      forall c ensures FailureHeard(t', k, d', c) { assert FailureHeard(t, k, d, c); }
    } else {
      assert d' == d;
    }
  }

  lemma AppendHeard(t: Story, k: Id, d: SdkState, b: Books, id: Id, kind: EventKind, payload: Option<Payload>)
    requires SdkHeard(t, k, d) && d.phase.Free?
    ensures var d' := AppendSection(d, b, id, kind, payload).sdk;
            if id in d.operations && id in d'.operations
               && |d'.operations[id].records| > |d.operations[id].records| then
              SdkHeard(t.(operations := t.operations[Key(k, id) :=
                            Beginning(CaptureOf(t, Key(k, id)),
                                      EventsOf(t, Key(k, id)) + [Said(kind, Plain(payload))])]), k, d')
            else SdkHeard(t, k, d')
  {
    var d' := AppendSection(d, b, id, kind, payload).sdk;
    var t' := t.(operations := t.operations[Key(k, id) :=
                   Beginning(CaptureOf(t, Key(k, id)), EventsOf(t, Key(k, id)) + [Said(kind, Plain(payload))])]);
    assert OperationHeard(t, k, d, id);
    if id in d.operations && id in d'.operations && |d'.operations[id].records| > |d.operations[id].records| {
      forall x ensures OperationHeard(t', k, d', x) { assert OperationHeard(t, k, d, x); }
      forall c ensures FailureHeard(t', k, d', c) { assert FailureHeard(t, k, d, c); }
    } else {
      if id in d.operations { WithoutForgets(d, id); }
      assert Forgets(d, d');
      ForgettingIsHeard(t, k, d, d');
    }
  }

  lemma NumberHeard(t: Story, k: Id, d: SdkState, call: Call, id: Id, payload: Option<Payload>)
    requires SdkHeard(t, k, d) && call !in d.numbered
    ensures var d' := NumberSection(d, call, id, payload).1;
            if call in d'.numbered then
              SdkHeard(t.(failures := t.failures[Key(k, call) := Failing(id, Plain(payload),
                                                                         |EventsOf(t, Key(k, id))|)]), k, d')
            else SdkHeard(t, k, d')
  {
    var d' := NumberSection(d, call, id, payload).1;
    var t' := t.(failures := t.failures[Key(k, call) := Failing(id, Plain(payload), |EventsOf(t, Key(k, id))|)]);
    assert OperationHeard(t, k, d, id);
    if call in d'.numbered {
      forall x ensures OperationHeard(t', k, d', x) { assert OperationHeard(t, k, d, x); }
      forall c ensures FailureHeard(t', k, d', c) { assert FailureHeard(t, k, d, c); }
    } else {
      assert d' == d;
    }
  }

  lemma SealIs(operation: ActiveOperation, failure: EventRecord, terminal: Option<Payload>, events: seq<Said>)
    requires RecordsAre(operation.records, events) && failure.kind == Failure && Seal(operation, failure, terminal).Ok?
    ensures var records, n := Seal(operation, failure, terminal).value, |events|;
            && |records| == n + 2 && RecordsAre(records[..n], events) && records[n] == failure
            && records[n + 1] == EventRecord(Terminal, Plain(terminal), n + 1)
  {
    var records := Seal(operation, failure, terminal).value;
    assert records[..|events|] == operation.records;
  }

  lemma RemoveHeard(t: Story, k: Id, d: SdkState, b: Books, call: Call, e: Encoding)
    requires SdkHeard(t, k, d) && call in d.numbered && d.phase.Free?
    ensures Key(k, call) in t.failures
    ensures var d' := RemoveSection(d, b, call, e).sdk; var f := t.failures[Key(k, call)];
            if d'.phase.Sealed? then
              SdkHeard(t.(sealed := t.sealed[k := Report(CaptureOf(t, Key(k, f.id)), f.id, EventsOf(t, Key(k, f.id)),
                                                         f.payload,
                                                         f.number, Plain(e.terminal))]), k, d')
            else SdkHeard(t, k, d')
  {
    assert FailureHeard(t, k, d, call);
    var d' := RemoveSection(d, b, call, e).sdk;
    var f := t.failures[Key(k, call)];
    var r := Report(CaptureOf(t, Key(k, f.id)), f.id, EventsOf(t, Key(k, f.id)), f.payload, f.number,
                    Plain(e.terminal));
    var t' := if d'.phase.Sealed? then t.(sealed := t.sealed[k := r]) else t;
    assert OperationHeard(t, k, d, f.id);
    if d'.phase.Sealed? {
      SealIs(d.operations[f.id], d.numbered[call].record, e.terminal, EventsOf(t, Key(k, f.id)));
    }
    forall x ensures OperationHeard(t', k, d', x) { assert OperationHeard(t, k, d, x); }
    forall c ensures FailureHeard(t', k, d', c) { assert FailureHeard(t, k, d, c); }
  }

  // ---- every step -----------------------------------------------------------------------------------

  /** The two stories tell the same of an Sdk. */
  predicate SameOf(t: Story, t': Story, k: Id, x: Id) {
    && (Key(k, x) in t.operations <==> Key(k, x) in t'.operations)
    && (Key(k, x) in t.operations ==> t'.operations[Key(k, x)] == t.operations[Key(k, x)])
    && (Key(k, x) in t.failures <==> Key(k, x) in t'.failures)
    && (Key(k, x) in t.failures ==> t'.failures[Key(k, x)] == t.failures[Key(k, x)])
    && (k in t.sealed <==> k in t'.sealed) && (k in t.sealed ==> t'.sealed[k] == t.sealed[k])
  }

  lemma OtherHeard(t: Story, t': Story, k: Id, d: SdkState)
    requires SdkHeard(t, k, d) && forall x :: SameOf(t, t', k, x)
    ensures SdkHeard(t', k, d)
  {
    assert SameOf(t, t', k, 0);
    forall x ensures OperationHeard(t', k, d, x) { assert OperationHeard(t, k, d, x) && SameOf(t, t', k, x); }
    forall c ensures FailureHeard(t', k, d, c) { assert FailureHeard(t, k, d, c) && SameOf(t, t', k, c); }
    hide RecordsAre, CandidateIs;
  }

  /** A step that concerns one Sdk. */
  lemma OneSdk(t: Story, t': Story, s: State, s': State, k: Id)
    requires Heard(t, s) && k in s.sdks && k in s'.sdks && s'.sdks == s.sdks[k := s'.sdks[k]]
             && SdkHeard(t', k, s'.sdks[k])
    requires forall j, x :: j != k ==> SameOf(t, t', j, x)
    requires s'.recorders == s.recorders && t'.kept == t.kept
    ensures Heard(t', s')
  {
    forall j | j in s'.sdks ensures SdkHeard(t', j, s'.sdks[j]) {
      if j != k { OtherHeard(t, t', j, s.sdks[j]); }
    }
    hide SdkHeard, SameOf;
  }

  lemma ForgettingStep(t: Story, s: State, s': State, k: Id)
    requires Heard(t, s) && k in s.sdks && k in s'.sdks && s'.sdks == s.sdks[k := s'.sdks[k]]
             && s'.recorders == s.recorders
    requires Forgets(s.sdks[k], s'.sdks[k])
    ensures Heard(t, s')
  {
    ForgettingIsHeard(t, k, s.sdks[k], s'.sdks[k]);
    hide SdkHeard, Forgets;
    OneSdk(t, t, s, s', k);
  }

  /** The sections of a call, and those that let operations go. */
  predicate OnlyForgets(step: Step) {
    step.Bind? || step.Drop? || step.Forget? || step.Observe? || step.Admit? || step.HandOff? || step.Claim?
    || step.Answer?
    || step.GiveUp? || step.Check? || step.Settle? || step.StartEnd? || step.EndOne?
  }

  /** Only how far the call has come may change. */
  predicate Proceeds(d: SdkState, d': SdkState) {
    && d'.operations == d.operations && d'.numbered == d.numbered
    && (Carries(d'.phase) ==> Carries(d.phase) && d'.phase.candidate == d.phase.candidate)
  }

  lemma SectionsProceed(d: SdkState, b: Books, decision: Decision, sent: bool)
    ensures d.phase.Sealed? ==> Proceeds(d, AdmitSection(d, decision))
    ensures d.phase.Passed? ==> Proceeds(d, HandOffSection(d, b).sdk)
    ensures d.phase.HandedOff? ==> Proceeds(d, ClaimSection(d, b).sdk)
    ensures d.phase.HandedOff? || d.phase.InSink? || d.phase.Declined? ==> Proceeds(d, AnswerSection(d, sent))
    ensures d.phase.Refusing? ==> Proceeds(d, GiveUpSection(d, b).sdk)
    ensures d.phase.Sent? ==> Proceeds(d, CheckSection(d, b))
    ensures d.phase.Checked? ==> Proceeds(d, SettleSection(d, b).sdk)
  {
    hide Entered, Claimed, Returned, Claimable, MayHandOff, IsRetained, Counted;
  }

  lemma ProceedingForgets(d: SdkState, d': SdkState)
    requires Proceeds(d, d')
    ensures Forgets(d, d')
  {
  }

  /** The sections of a call change one Sdk and no recorder. */
  predicate ChangesSdk(s: State, s': State, k: Id, d': SdkState) {
    k in s.sdks && s'.sdks == s.sdks[k := d'] && s'.recorders == s.recorders
  }

  lemma CallIs(s: State, step: Step)
    requires step.Admit? || step.HandOff? || step.Claim? || step.Answer? || step.GiveUp? || step.Check? || step.Settle?
    requires Enabled(s, step) && step.sdk in s.sdks
    ensures var d, s' := s.sdks[step.sdk], Apply(s, step);
            match step
            case Admit(k, now) => d.phase.Sealed?
                                  && ChangesSdk(s, s', k, AdmitSection(d, Decide(s.admissions, d.phase.storm, now)))
            case HandOff(k) => d.phase.Passed? && ChangesSdk(s, s', k, HandOffSection(d, s.books).sdk)
            case Claim(k) => d.phase.HandedOff? && ChangesSdk(s, s', k, ClaimSection(d, s.books).sdk)
            case Answer(k, sent) =>
              && (d.phase.HandedOff? || d.phase.InSink? || d.phase.Declined?)
              && ChangesSdk(s, s', k, AnswerSection(d, sent))
            case GiveUp(k) => d.phase.Refusing? && ChangesSdk(s, s', k, GiveUpSection(d, s.books).sdk)
            case Check(k) => d.phase.Sent? && ChangesSdk(s, s', k, CheckSection(d, s.books))
            case Settle(k) => d.phase.Checked? && ChangesSdk(s, s', k, SettleSection(d, s.books).sdk)
            case _ => true
  {
    hide AdmitSection, HandOffSection, ClaimSection, AnswerSection, GiveUpSection, CheckSection, SettleSection, Decide,
        Removed;
  }

  lemma CallForgets(s: State, step: Step)
    requires Enabled(s, step)
    requires step.Admit? || step.HandOff? || step.Claim? || step.Answer? || step.GiveUp? || step.Check? || step.Settle?
    ensures step.sdk in s.sdks && step.sdk in Apply(s, step).sdks && Apply(s, step).recorders == s.recorders
    ensures Apply(s, step).sdks == s.sdks[step.sdk := Apply(s, step).sdks[step.sdk]]
    ensures Forgets(s.sdks[step.sdk], Apply(s, step).sdks[step.sdk])
  {
    assert step.sdk in s.sdks;
    CallIs(s, step);
    var d := s.sdks[step.sdk];
    var decision := if step.Admit? then Decide(s.admissions, d.phase.storm, step.now) else Admitted;
    SectionsProceed(d, s.books, decision, step.Answer? && step.sent);
    hide Enabled, Apply, AdmitSection, HandOffSection, ClaimSection, AnswerSection, GiveUpSection, CheckSection,
        SettleSection,
      Proceeds, Forgets;
    ProceedingForgets(d, Apply(s, step).sdks[step.sdk]);
  }

  lemma TableForgets(s: State, step: Step)
    requires Enabled(s, step)
             && (step.Bind? || step.Drop? || step.Forget? || step.Observe? || step.StartEnd? || step.EndOne?)
    ensures step.sdk in s.sdks && step.sdk in Apply(s, step).sdks && Apply(s, step).recorders == s.recorders
    ensures Apply(s, step).sdks == s.sdks[step.sdk := Apply(s, step).sdks[step.sdk]]
    ensures Forgets(s.sdks[step.sdk], Apply(s, step).sdks[step.sdk])
  {
    hide Released, OwnerAfter;
  }

  lemma ForgetsHeard(t: Story, s: State, step: Step)
    requires Heard(t, s) && Enabled(s, step) && OnlyForgets(step)
    ensures Heard(Hear(t, s, Apply(s, step), step), Apply(s, step))
  {
    hide Forgets, Heard, Apply, Enabled;
    if step.Bind? || step.Drop? || step.Forget? || step.Observe? || step.StartEnd? || step.EndOne? {
      TableForgets(s, step);
    } else {
      CallForgets(s, step);
    }
    ForgettingStep(t, s, Apply(s, step), step.sdk);
  }

  lemma TableIs(s: State, step: Step)
    requires Enabled(s, step) && (step.BeginStep? || step.Append? || step.Number? || step.Remove?)
    ensures step.sdk in s.sdks && s.sdks[step.sdk].phase.Free? && Apply(s, step).recorders == s.recorders
    ensures var d := s.sdks[step.sdk];
            && (step.Remove? ==> step.call in d.numbered) && (step.Number? ==> step.call !in d.numbered)
            && Apply(s, step).sdks == s.sdks[step.sdk :=
                 match step
                 case BeginStep(_, id, cap, payload, world) => BeginSection(d, s.books, id, cap, payload, world).sdk
                 case Append(_, id, kind, payload) => AppendSection(d, s.books, id, kind, payload).sdk
                 case Number(_, call, id, payload) => NumberSection(d, call, id, payload).1
                 case Remove(_, call, e) => RemoveSection(d, s.books, call, e).sdk
                 case _ => d]
  {
    hide BeginSection, AppendSection, NumberSection, RemoveSection, OwnerAfter;
  }

  lemma BeginStepHeard(t: Story, s: State, k: Id, id: Id, cap: Id, payload: Option<Payload>, world: bool)
    requires Heard(t, s) && Enabled(s, BeginStep(k, id, cap, payload, world))
    ensures Heard(Hear(t, s, Apply(s, BeginStep(k, id, cap, payload, world)), BeginStep(k, id, cap, payload, world)),
                  Apply(s, BeginStep(k, id, cap, payload, world)))
  {
    TableIs(s, BeginStep(k, id, cap, payload, world));
    var d, s' := s.sdks[k], Apply(s, BeginStep(k, id, cap, payload, world));
    BeginHeard(t, k, d, s.books, id, cap, payload, world);
    hide Apply, BeginSection, SdkHeard;
    OneSdk(t, Hear(t, s, s', BeginStep(k, id, cap, payload, world)), s, s', k);
  }

  lemma AppendStepHeard(t: Story, s: State, k: Id, id: Id, kind: EventKind, payload: Option<Payload>)
    requires Heard(t, s) && Enabled(s, Step.Append(k, id, kind, payload))
    ensures Heard(Hear(t, s, Apply(s, Step.Append(k, id, kind, payload)), Step.Append(k, id, kind, payload)),
                  Apply(s, Step.Append(k, id, kind, payload)))
  {
    TableIs(s, Step.Append(k, id, kind, payload));
    var d, s' := s.sdks[k], Apply(s, Step.Append(k, id, kind, payload));
    AppendHeard(t, k, d, s.books, id, kind, payload);
    hide Apply, AppendSection, SdkHeard;
    OneSdk(t, Hear(t, s, s', Step.Append(k, id, kind, payload)), s, s', k);
  }

  lemma NumberStepHeard(t: Story, s: State, k: Id, call: Call, id: Id, payload: Option<Payload>)
    requires Heard(t, s) && Enabled(s, Step.Number(k, call, id, payload))
    ensures Heard(Hear(t, s, Apply(s, Step.Number(k, call, id, payload)), Step.Number(k, call, id, payload)),
                  Apply(s, Step.Number(k, call, id, payload)))
  {
    TableIs(s, Step.Number(k, call, id, payload));
    var d, s' := s.sdks[k], Apply(s, Step.Number(k, call, id, payload));
    NumberHeard(t, k, d, call, id, payload);
    hide Apply, NumberSection, SdkHeard;
    OneSdk(t, Hear(t, s, s', Step.Number(k, call, id, payload)), s, s', k);
  }

  lemma RemoveStepHeard(t: Story, s: State, k: Id, call: Call, e: Encoding)
    requires Heard(t, s) && Enabled(s, Step.Remove(k, call, e))
    ensures Heard(Hear(t, s, Apply(s, Step.Remove(k, call, e)), Step.Remove(k, call, e)),
                  Apply(s, Step.Remove(k, call, e)))
  {
    TableIs(s, Step.Remove(k, call, e));
    var d, s' := s.sdks[k], Apply(s, Step.Remove(k, call, e));
    RemoveHeard(t, k, d, s.books, call, e);
    hide Apply, RemoveSection, SdkHeard;
    OneSdk(t, Hear(t, s, s', Step.Remove(k, call, e)), s, s', k);
  }

  lemma SayingHeard(t: Story, s: State, step: Step)
    requires Heard(t, s) && Enabled(s, step) && (step.BeginStep? || step.Append? || step.Number? || step.Remove?)
    ensures Heard(Hear(t, s, Apply(s, step), step), Apply(s, step))
  {
    hide Heard, Hear, Apply, Enabled;
    match step
    case BeginStep(k, id, cap, payload, world) => BeginStepHeard(t, s, k, id, cap, payload, world);
    case Append(k, id, kind, payload) => AppendStepHeard(t, s, k, id, kind, payload);
    case Number(k, call, id, payload) => NumberStepHeard(t, s, k, call, id, payload);
    case Remove(k, call, e) => RemoveStepHeard(t, s, k, call, e);
    case _ =>
  }

  lemma KeepIs(s: State, k: Id)
    requires Enabled(s, Keep(k))
    ensures var d, s', r := s.sdks[k], Apply(s, Keep(k)), s.sdks[k].sink.recorder;
            && k in s'.sdks && s'.sdks == s.sdks[k := s'.sdks[k]] && Proceeds(d, s'.sdks[k])
            && r in s'.recorders && s'.recorders == s.recorders[r := s'.recorders[r]] && Carries(d.phase)
            && (s'.recorders[r].candidate == s.recorders[r].candidate
                || (s.recorders[r].candidate.None? && s'.recorders[r].candidate == Some(d.phase.candidate)))
  {
  }

  lemma KeepHeard(t: Story, s: State, k: Id)
    requires Heard(t, s) && Enabled(s, Keep(k))
    ensures Heard(Hear(t, s, Apply(s, Keep(k)), Keep(k)), Apply(s, Keep(k)))
  {
    var s' := Apply(s, Keep(k));
    var r := s.sdks[k].sink.recorder;
    var t' := Hear(t, s, s', Keep(k));
    KeepIs(s, k);
    assert SdkHeard(t, k, s.sdks[k]) && RecorderHeard(t, r, s.recorders[r]);
    ProceedingForgets(s.sdks[k], s'.sdks[k]);
    ForgettingIsHeard(t, k, s.sdks[k], s'.sdks[k]);
    hide Apply, RecordsAre, CandidateIs, Forgets, Proceeds;
    assert RecorderHeard(t', r, s'.recorders[r]);
    forall j | j in s'.sdks ensures SdkHeard(t', j, s'.sdks[j]) {
      OtherHeard(t, t', j, s'.sdks[j]);
    }
  }

  lemma OthersHeard(t: Story, s: State, step: Step)
    requires Heard(t, s) && Enabled(s, step) && !OnlyForgets(step) && !step.Keep?
    requires !step.BeginStep? && !step.Append? && !step.Number? && !step.Remove?
    ensures Heard(Hear(t, s, Apply(s, step), step), Apply(s, step))
  {
    hide RecordsAre, CandidateIs, Entered, Returned;
  }

  lemma StepHeard(t: Story, s: State, step: Step)
    requires Heard(t, s) && Enabled(s, step)
    ensures Heard(Hear(t, s, Apply(s, step), step), Apply(s, step))
  {
    if OnlyForgets(step) {
      ForgetsHeard(t, s, step);
    } else if step.BeginStep? || step.Append? || step.Number? || step.Remove? {
      SayingHeard(t, s, step);
    } else if step.Keep? {
      KeepHeard(t, s, step.sdk);
    } else {
      OthersHeard(t, s, step);
    }
    hide Heard, Hear, Apply, Enabled;
  }

  lemma {:induction false} RunHeard(t: Story, s: State, steps: seq<Step>)
    requires Heard(t, s) && Legal(s, steps)
    ensures Heard(Listen(t, s, steps), Run(s, steps))
    decreases |steps|
  {
    hide Heard, Hear, Apply, Enabled;
    if steps != [] {
      StepHeard(t, s, steps[0]);
      RunHeard(Hear(t, s, Apply(s, steps[0]), steps[0]), Apply(s, steps[0]), steps[1..]);
    }
  }

  // ---- what every run's records hold ----------------------------------------------------------------

  /**
   * In every run the records of a stored operation are exactly the events that were accepted for it, with
   * their kinds and payloads, in order; the bytes accounted for it are theirs.
   */
  lemma RecordsAreWhatWasSaid(steps: seq<Step>, k: Id, id: Id)
    requires Legal(Init(), steps) && Stores(Run(Init(), steps), k, id)
    ensures var s, t := Run(Init(), steps), Listen(UNTOLD, Init(), steps);
            && Key(k, id) in t.operations
            && var events := t.operations[Key(k, id)].events;
               && RecordsAre(s.sdks[k].operations[id].records, events)
               && s.sdks[k].operations[id].captureId == t.operations[Key(k, id)].captureId
               && s.sdks[k].operations[id].bytes == BytesOf(events)
  {
    var s, t := Run(Init(), steps), Listen(UNTOLD, Init(), steps);
    RunHeard(UNTOLD, Init(), steps);
    InitOk();
    RunKeeps(Init(), steps);
    assert SdkHeard(t, k, s.sdks[k]) && OperationHeard(t, k, s.sdks[k], id);
    assert SdkOk(s, k);
    SizesAre(s.sdks[k].operations[id].records, t.operations[Key(k, id)].events);
  }

  lemma {:induction false} SizesAre(records: seq<EventRecord>, events: seq<Said>)
    requires RecordsAre(records, events) && SizeOf(records) <= MAX_OPERATION_BYTES
    ensures SizeOf(records) == BytesOf(events)
    decreases |records|
  {
    if records != [] {
      SizesAre(records[..|records| - 1], events[..|events| - 1]);
    }
  }

  /** The candidate of a failing operation holds its events, its failure and its end in all sections. */
  lemma CandidatesReport(steps: seq<Step>, k: Id)
    requires Legal(Init(), steps) && k in Run(Init(), steps).sdks && Carries(Run(Init(), steps).sdks[k].phase)
    ensures var t := Listen(UNTOLD, Init(), steps);
            k in t.sealed && CandidateIs(Run(Init(), steps).sdks[k].phase.candidate, t.sealed[k])
  {
    RunHeard(UNTOLD, Init(), steps);
    hide CandidateIs, RecordsAre;
  }

  /** And so does the candidate that a recorder keeps. */
  lemma RecordersReport(steps: seq<Step>, r: Id)
    requires Legal(Init(), steps) && Keeping(Run(Init(), steps), r)
    ensures var t := Listen(UNTOLD, Init(), steps);
            r in t.kept && CandidateIs(Run(Init(), steps).recorders[r].candidate.value, t.kept[r])
  {
    RunHeard(UNTOLD, Init(), steps);
    hide CandidateIs, RecordsAre;
  }
}
