// All Sdks, local recorders and sinks of one process over one ledger, in every interleaving of their
// sections. The history says which Sdk stores each operation, which Sdk's failing operation carries
// each capture, and in whose custody each candidate entry of the ledger is.

module CaptureRuns {
  import opened Arith
  import opened CandidateEntries
  import opened Ledger
  import opened MapSums
  import opened Options
  import opened Records
  import opened Sections
  import opened StormGate

  /** Who answers for a candidate entry: a failing operation, a recorder, someone taking it out, or another sink. */
  datatype Place = Flight(sdk: Id) | Kept(recorder: Id) | Leaving | Elsewhere

  datatype State = State(
    books: Books,
    sdks: map<Id, SdkState>,
    recorders: map<Id, RecorderState>,
    admissions: seq<Admission>,          // the storm gate's history
    now: nat,
    owner: map<Id, Id>,                  // history: which Sdk stores each operation
    carrier: map<Id, Id>,                // history: which Sdk failed the operation of each capture
    place: map<Id, Place>)               // history: custody of each candidate entry

  datatype Step =
    | NewSdk(sdk: Id, sink: Sink)
    | NewRecorder(recorder: Id, operationId: Id)
    | BeginStep(sdk: Id, id: Id, captureId: Id, payload: Option<seq<bv8>>, worldBound: bool)
    | Bind(sdk: Id, id: Id)
    | Append(sdk: Id, id: Id, kind: EventKind, payload: Option<seq<bv8>>)
    | Drop(sdk: Id)
    | Forget(sdk: Id, id: Id, counted: bool)
    | Observe(sdk: Id)
    | Number(sdk: Id, call: Call, id: Id, payload: Option<seq<bv8>>)
    | Remove(sdk: Id, call: Call, encoding: Encoding)
    | Admit(sdk: Id, now: nat)
    | HandOff(sdk: Id)
    | Claim(sdk: Id)
    | Keep(sdk: Id)                      // a recorder answers
    | Answer(sdk: Id, sent: bool)        // another sink answers
    | GiveUp(sdk: Id)
    | Check(sdk: Id)
    | Settle(sdk: Id)
    | Take(recorder: Id)
    | ReleaseTaken(captureId: Id)
    | EndRecorder(recorder: Id)
    | StartEnd(sdk: Id)
    | EndOne(sdk: Id, id: Id)
    | End(sdk: Id)
    | PutElsewhere(captureId: Id, bytes: nat)      // another sink claims a candidate
    | ReleaseElsewhere(captureId: Id)              // and gives it back

  function Init(): State {
    State(EMPTY_BOOKS, map[], map[], [], 0, map[], map[], map[])
  }

  /** The Sdk exists and no call holds its lock. */
  predicate Unlocked(s: State, k: Id) {
    k in s.sdks && s.sdks[k].phase.Free?
  }

  predicate MayAnswer(d: SdkState, sent: bool) {
    match d.sink
    case RecorderSink(_) => false
    case ManagedSink => d.phase.InSink? || ((d.phase.HandedOff? || d.phase.Declined?) && !sent)
    case PlainSink => d.phase.HandedOff?
  }

  predicate Enabled(s: State, step: Step) {
    match step
    case NewSdk(k, sink) => k !in s.sdks && (sink.RecorderSink? ==> sink.recorder in s.recorders)
    case NewRecorder(r, _) => r !in s.recorders
    case BeginStep(k, _, _, _, _) => Unlocked(s, k)
    case Bind(k, _) => Unlocked(s, k)
    case Append(k, _, _, _) => Unlocked(s, k)
    case Drop(k) => k in s.sdks && s.sdks[k].phase.Dropping? && s.sdks[k].phase.operationId in s.sdks[k].operations
    case Forget(k, _, _) => Unlocked(s, k)
    case Observe(k) => Unlocked(s, k)
    case Number(k, call, _, _) => Unlocked(s, k) && call !in s.sdks[k].numbered
    case Remove(k, call, _) =>
      && Unlocked(s, k) && call in s.sdks[k].numbered
      && (var id := s.sdks[k].numbered[call].operationId;
          id in s.sdks[k].operations ==> s.sdks[k].operations[id].captureId !in s.carrier)
    case Admit(k, now) => k in s.sdks && s.sdks[k].phase.Sealed? && s.now <= now <= U64_MAX
    case HandOff(k) => k in s.sdks && s.sdks[k].phase.Passed?
    case Claim(k) => k in s.sdks && s.sdks[k].phase.HandedOff? && !s.sdks[k].sink.PlainSink?
    case Keep(k) =>
      && k in s.sdks && (s.sdks[k].phase.InSink? || s.sdks[k].phase.Declined?)
      && s.sdks[k].sink.RecorderSink? && s.sdks[k].sink.recorder in s.recorders
    case Answer(k, sent) => k in s.sdks && MayAnswer(s.sdks[k], sent)
    case GiveUp(k) => k in s.sdks && s.sdks[k].phase.Refusing?
    case Check(k) => k in s.sdks && s.sdks[k].phase.Sent?
    case Settle(k) => k in s.sdks && s.sdks[k].phase.Checked?
    case Take(r) => r in s.recorders && s.recorders[r].candidate.Some?
    case ReleaseTaken(cap) => cap in s.place && s.place[cap].Leaving?
    case EndRecorder(r) => r in s.recorders && forall k :: k in s.sdks ==> s.sdks[k].sink != RecorderSink(r)
    case StartEnd(k) => Unlocked(s, k) && s.sdks[k].numbered == map[]
    case EndOne(k, id) => k in s.sdks && s.sdks[k].phase.Ending? && id in s.sdks[k].operations
    case End(k) => k in s.sdks && s.sdks[k].phase.Ending? && s.sdks[k].operations == map[]
    case PutElsewhere(cap, bytes) => MayHandOff(s.books, cap, bytes)
    case ReleaseElsewhere(cap) => cap in s.place ==> s.place[cap].Elsewhere?
  }

  // ---- the steps -------------------------------------------------------------------------------------

  /** The storm gate's decision, as its own contract gives it. */
  ghost function Decide(admissions: seq<Admission>, identity: nat, now: nat): Decision {
    if RecentlyAdmitted(admissions, identity, now) then SuppressedExact
    else if Admits(admissions, identity, now) then Admitted
    else SuppressedHighCardinality
  }

  /** An operation's owner after a section of its Sdk. */
  function OwnerAfter(owner: map<Id, Id>, k: Id, id: Id, before: SdkState, after: SdkState): map<Id, Id> {
    if id in after.operations then owner[id := k] else if id in before.operations then Removed(owner, id) else owner
  }

  /** A section of one Sdk that concerns one operation of its table. */
  function InTable(s: State, k: Id, id: Id, d: SdkState, b: Books): State
    requires k in s.sdks
  {
    s.(books := b, sdks := s.sdks[k := d], owner := OwnerAfter(s.owner, k, id, s.sdks[k], d))
  }

  /** A section of one Sdk that concerns its candidate. */
  function WithSdk(s: State, k: Id, d: SdkState): State {
    s.(sdks := s.sdks[k := d])
  }

  function Gone(s: State, b: Books, cap: Id): State {
    s.(books := b, place := Removed(s.place, cap))
  }

  function ApplyRemove(s: State, k: Id, call: Call, e: Encoding): State
    requires k in s.sdks && call in s.sdks[k].numbered
  {
    var r := RemoveSection(s.sdks[k], s.books, call, e);
    var s1 := InTable(s, k, s.sdks[k].numbered[call].operationId, r.sdk, r.books);
    if r.sdk.phase.Sealed? then s1.(carrier := s1.carrier[r.sdk.phase.candidate.captureId := k]) else s1
  }

  function ApplyHandOff(s: State, k: Id): State
    requires k in s.sdks && s.sdks[k].phase.Passed?
  {
    var r := HandOffSection(s.sdks[k], s.books);
    var s1 := WithSdk(s.(books := r.books), k, r.sdk);
    if r.sdk.phase.HandedOff? then s1.(place := s1.place[r.sdk.phase.candidate.captureId := Flight(k)]) else s1
  }

  /** A claim that did not find the handoff takes the entry into its custody itself. */
  function ApplyClaim(s: State, k: Id): State
    requires k in s.sdks && s.sdks[k].phase.HandedOff?
  {
    var r := ClaimSection(s.sdks[k], s.books);
    var s1 := WithSdk(s.(books := r.books), k, r.sdk);
    if r.sdk.phase.InSink? then s1.(place := s1.place[r.sdk.phase.candidate.captureId := Flight(k)]) else s1
  }

  function ApplyKeep(s: State, k: Id): State
    requires Enabled(s, Keep(k))
  {
    var d := s.sdks[k];
    var r := d.sink.recorder;
    var (sent, rec) := KeepSection(s.recorders[r], d.phase.candidate, d.phase.InSink?);
    var s1 := WithSdk(s.(recorders := s.recorders[r := rec]), k, AnswerSection(d, sent));
    if sent then s1.(place := s1.place[d.phase.candidate.captureId := Kept(r)]) else s1
  }

  function ApplyAnswer(s: State, k: Id, sent: bool): State
    requires Enabled(s, Answer(k, sent))
  {
    var d := s.sdks[k];
    var s1 := WithSdk(s, k, AnswerSection(d, sent));
    if d.phase.InSink? && sent then s1.(place := s1.place[d.phase.candidate.captureId := Elsewhere]) else s1
  }

  function ApplyGiveUp(s: State, k: Id): State
    requires k in s.sdks && s.sdks[k].phase.Refusing?
  {
    var r := GiveUpSection(s.sdks[k], s.books);
    Gone(WithSdk(s, k, r.sdk), r.books, s.sdks[k].phase.candidate.captureId)
  }

  function ApplySettle(s: State, k: Id): State
    requires k in s.sdks && s.sdks[k].phase.Checked?
  {
    var r := SettleSection(s.sdks[k], s.books);
    var s1 := WithSdk(s, k, r.sdk);
    if s.sdks[k].phase.retained then s1 else Gone(s1, r.books, s.sdks[k].phase.candidate.captureId)
  }

  function ApplyTake(s: State, r: Id): State
    requires Enabled(s, Take(r))
  {
    var (taken, rec) := TakeSection(s.recorders[r]);
    s.(recorders := s.recorders[r := rec], place := s.place[taken.value.captureId := Leaving])
  }

  function ApplyEndRecorder(s: State, r: Id): State
    requires r in s.recorders
  {
    var rec := s.recorders[r];
    var s1 := s.(recorders := Removed(s.recorders, r));
    if rec.candidate.Some? then
         Gone(s1, Returned(s.books, rec.candidate.value.captureId), rec.candidate.value.captureId) else s1
  }

  ghost function ApplyAdmit(s: State, k: Id, now: nat): State
    requires k in s.sdks && s.sdks[k].phase.Sealed?
  {
    var d := s.sdks[k];
    var decision := Decide(s.admissions, d.phase.storm, now);
    WithSdk(s, k, AdmitSection(d, decision)).(now := now,
      admissions := if decision.Admitted? then s.admissions + [Admission(d.phase.storm, now)] else s.admissions)
  }

  ghost function Apply(s: State, step: Step): State
    requires Enabled(s, step)
  {
    match step
    case NewSdk(k, sink) => WithSdk(s, k, NewSdkState(sink))
    case NewRecorder(r, operationId) => s.(recorders := s.recorders[r := NewRecorderState(operationId)])
    case BeginStep(k, id, cap, payload, world) =>
      var r := BeginSection(s.sdks[k], s.books, id, cap, payload, world);
      InTable(s, k, id, r.sdk, r.books)
    case Bind(k, id) => InTable(s, k, id, BindSection(s.sdks[k], id).1, s.books)
    case Append(k, id, kind, payload) =>
      var r := AppendSection(s.sdks[k], s.books, id, kind, payload);
      InTable(s, k, id, r.sdk, r.books)
    case Drop(k) =>
      var r := DropSection(s.sdks[k], s.books);
      InTable(s, k, s.sdks[k].phase.operationId, r.sdk, r.books)
    case Forget(k, id, counted) =>
      var r := ForgetSection(s.sdks[k], s.books, id, counted);
      InTable(s, k, id, r.sdk, r.books)
    case Observe(k) => WithSdk(s, k, ObserveSection(s.sdks[k]))
    case Number(k, call, id, payload) => WithSdk(s, k, NumberSection(s.sdks[k], call, id, payload).1)
    case Remove(k, call, e) => ApplyRemove(s, k, call, e)
    case Admit(k, now) => ApplyAdmit(s, k, now)
    case HandOff(k) => ApplyHandOff(s, k)
    case Claim(k) => ApplyClaim(s, k)
    case Keep(k) => ApplyKeep(s, k)
    case Answer(k, sent) => ApplyAnswer(s, k, sent)
    case GiveUp(k) => ApplyGiveUp(s, k)
    case Check(k) => WithSdk(s, k, CheckSection(s.sdks[k], s.books))
    case Settle(k) => ApplySettle(s, k)
    case Take(r) => ApplyTake(s, r)
    case ReleaseTaken(cap) => Gone(s, Returned(s.books, cap), cap)
    case EndRecorder(r) => ApplyEndRecorder(s, r)
    case StartEnd(k) => WithSdk(s, k, s.sdks[k].(phase := Ending))
    case EndOne(k, id) => InTable(s, k, id, WithoutOperation(s.sdks[k], id), Released(s.books, id))
    case End(k) => s.(sdks := Removed(s.sdks, k))
    case PutElsewhere(cap, bytes) =>
           s.(books := Entered(s.books, cap, bytes, Retained), place := s.place[cap := Elsewhere])
    case ReleaseElsewhere(cap) => Gone(s, Returned(s.books, cap), cap)
  }

  // ---- the invariant -----------------------------------------------------------------------------

  /** The ledger's entry of an operation is the one its Sdk stores, with the same bytes. */
  predicate OperationOk(s: State, id: Id) {
    && (id in s.books.active <==> id in s.owner)
    && (id in s.owner ==>
          && s.owner[id] in s.sdks && id in s.sdks[s.owner[id]].operations
          && s.books.active[id] == s.sdks[s.owner[id]].operations[id].bytes)
  }

  /** A numbered failure's operation has grown by exactly the appends since, unless it was ended. */
  predicate NumberedOk(d: SdkState) {
    forall c :: c in d.numbered && !d.numbered[c].restarted ==>
      && d.numbered[c].operationId in d.operations
      && |d.operations[d.numbered[c].operationId].records| == d.numbered[c].record.sequence + d.numbered[c].appends
  }

  /** One Sdk by itself. */
  ghost predicate LocalOk(d: SdkState) {
    && d.globalBytes == OperationTotal(d.operations)
    && AllWellFormed(d.operations)
    && NumberedOk(d)
    && (d.phase.Dropping? ==> d.phase.operationId in d.operations)
    && (Carries(d.phase) && !d.phase.Sealed? ==> d.phase.candidate.canonicalLength.Some?)
  }

  /** One Sdk among the others. */
  ghost predicate SdkOk(s: State, k: Id) {
    k in s.sdks ==>
      var d := s.sdks[k];
      && LocalOk(d)
      && (forall id :: id in d.operations ==> id in s.owner && s.owner[id] == k)
      && (Carries(d.phase) ==> d.phase.candidate.captureId in s.carrier && s.carrier[d.phase.candidate.captureId] == k)
      && (d.sink.RecorderSink? ==> d.sink.recorder in s.recorders)
  }

  predicate InPlace(s: State, cap: Id, place: Place) {
    cap in s.place && s.place[cap] == place
  }

  predicate HasEntry(s: State, cap: Id, entry: CandidateEntry) {
    cap in s.books.candidates && s.books.candidates[cap] == entry
  }

  /** The candidate is with nobody here: its entry is gone or another sink's. */
  predicate IsAway(s: State, cap: Id) {
    cap in s.place ==> s.place[cap].Elsewhere?
  }

  /** The handoff of the Sdk's failing operation is still its own, and unclaimed. */
  predicate Unclaimed(s: State, k: Id, c: Candidate) {
    InPlace(s, c.captureId, Flight(k)) && HasEntry(s, c.captureId, CandidateEntry(Length(c), Handoff))
  }

  predicate OwnClaim(s: State, k: Id, c: Candidate) {
    InPlace(s, c.captureId, Flight(k)) && HasEntry(s, c.captureId, CandidateEntry(Length(c), Retained))
  }

  /** Out of the Sdk's hands: whatever entry there is belongs to someone else. */
  predicate HandedOver(s: State, cap: Id) {
    cap in s.place ==> !s.place[cap].Flight?
  }

  /** Where the candidate of a failing operation may be in each phase. */
  predicate PhaseOk(s: State, k: Id, phase: Phase, sink: Sink)
    requires Carries(phase)
  {
    var c := phase.candidate;
    match phase
    case Sealed(_, _, _) => IsAway(s, c.captureId)
    case Passed(_, _) => IsAway(s, c.captureId)
    case HandedOff(_, _) => Unclaimed(s, k, c)
    case InSink(_, _) => OwnClaim(s, k, c) && !sink.PlainSink?
    case Declined(_, _) => false
    case Refusing(_, _) => OwnClaim(s, k, c) && !sink.PlainSink?
    case Sent(_, _, sent) =>
      if sink.PlainSink? then Unclaimed(s, k, c)
      else if sent then HandedOver(s, c.captureId)
      else IsAway(s, c.captureId) || Unclaimed(s, k, c)
    case Checked(_, _, sent, retained) =>
      if sink.PlainSink? then Unclaimed(s, k, c) && !retained
      else if retained then (if sent then HandedOver(s, c.captureId) else IsAway(s, c.captureId))
      else IsAway(s, c.captureId) || (Unclaimed(s, k, c) && !sent)
  }

  /** Everything about one capture. */
  predicate CaptureOk(s: State, cap: Id) {
    && (cap in s.place <==> cap in s.books.candidates)
    && (cap in s.place ==>
          match s.place[cap]
          case Flight(k) => k in s.sdks && About(s.sdks[k].phase, cap)
          case Kept(r) =>
            && r in s.recorders && s.recorders[r].candidate.Some? && s.recorders[r].candidate.value.captureId == cap
            && s.books.candidates[cap] == CandidateEntry(s.recorders[r].bytes, Retained)
          case Leaving => s.books.candidates[cap].state == Retained
          case Elsewhere => s.books.candidates[cap].state == Retained)
    && (cap in s.place && (s.place[cap].Kept? || s.place[cap].Leaving?) ==> cap in s.carrier)
    && (cap in s.carrier && s.carrier[cap] in s.sdks && About(s.sdks[s.carrier[cap]].phase, cap) ==>
          PhaseOk(s, s.carrier[cap], s.sdks[s.carrier[cap]].phase, s.sdks[s.carrier[cap]].sink))
  }

  /** A recorder's candidate is in its custody. */
  predicate RecorderOk(s: State, r: Id) {
    r in s.recorders ==>
      match s.recorders[r].candidate
      case None => s.recorders[r].bytes == 0
      case Some(c) => InPlace(s, c.captureId, Kept(r)) && s.recorders[r].bytes == Length(c)
  }

  ghost predicate GateOk(s: State) {
    s.now <= U64_MAX && TimesOrdered(s.admissions, s.now) && RateLaw(s.admissions) && Spaced(s.admissions)
  }

  function GlobalBytes(sdks: map<Id, SdkState>): map<Id, nat> {
    map k | k in sdks :: sdks[k].globalBytes
  }

  ghost predicate Inv(s: State) {
    && Balanced(s.books)
    && s.books.activeBytes == Sum(GlobalBytes(s.sdks))
    && (forall id :: OperationOk(s, id))
    && (forall k :: SdkOk(s, k))
    && (forall cap :: CaptureOk(s, cap))
    && (forall r :: RecorderOk(s, r))
    && GateOk(s)
  }
}
