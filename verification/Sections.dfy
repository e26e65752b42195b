// What an Sdk and a local recorder do in each section: between taking and releasing the ledger's lock,
// or in one piece under their own lock. An Sdk keeps its own lock across the sections of one call, and
// its phase says how far that call has come; other objects of the process move on in between.

module Sections {
  import opened Arith
  import opened CandidateEntries
  import opened Ledger
  import opened MapSums
  import opened Options
  import opened Records
  import opened StormGate

  type Call = int

  /** Where an Sdk sends its candidates. A plain sink does not retain them. */
  datatype Sink = RecorderSink(recorder: Id) | ManagedSink | PlainSink

  /** What became of a failing operation. */
  datatype FailOutcome =
    | Rejected                            // sealing, validation or encoding failed
    | Suppressed(decision: Decision)      // by the storm gate
    | QueueFull                           // no room in the ledger
    | Refused                             // the sink would not keep it
    | Delivered

  /** The call that holds the Sdk's lock between two sections, if there is one. */
  datatype Phase =
    | Free
    | Dropping(operationId: Id)                            // an append found no room; its operation must go
    | Ending                                               // the Sdk itself is being dropped
    | Sealed(call: Call, candidate: Candidate, storm: nat) // out of the table; next the storm gate
    | Passed(call: Call, candidate: Candidate)             // next the reservation
    | HandedOff(call: Call, candidate: Candidate)          // reserved; next the sink
    | InSink(call: Call, candidate: Candidate)             // claimed by the sink, not yet kept
    | Declined(call: Call, candidate: Candidate)           // the claim failed
    | Refusing(call: Call, candidate: Candidate)           // not kept; the claim must be given back
    | Sent(call: Call, candidate: Candidate, sent: bool)   // the sink has answered
    | Checked(call: Call, candidate: Candidate, sent: bool, retained: bool)

  predicate Carries(phase: Phase) {
    !phase.Free? && !phase.Dropping? && !phase.Ending?
  }

  predicate About(phase: Phase, captureId: Id) {
    Carries(phase) && phase.candidate.captureId == captureId
  }

  datatype Recall = Recall(eligible: nat, suppressedExact: nat, suppressedHighCardinality: nat, queueFull: nat,
                           incomplete: nat)

  /** The recall counter that goes with an outcome. */
  function Counted(r: Recall, outcome: FailOutcome): Recall {
    match outcome
    case Suppressed(decision) =>
      if decision == SuppressedExact then r.(suppressedExact := SatAdd(r.suppressedExact, 1))
      else r.(suppressedHighCardinality := SatAdd(r.suppressedHighCardinality, 1))
    case QueueFull => r.(queueFull := SatAdd(r.queueFull, 1))
    case _ => r
  }

  /**
   * A failure record between the section that numbers it and the one that appends it. The history says
   * how many records were appended to its operation meanwhile, and whether that operation ended.
   */
  datatype Numbered = Numbered(operationId: Id, record: EventRecord, appends: nat, restarted: bool)

  datatype SdkState = SdkState(
    sink: Sink,
    operations: map<Id, ActiveOperation>,
    globalBytes: nat,
    recall: Recall,
    phase: Phase,
    numbered: map<Call, Numbered>,
    outcomes: map<Call, FailOutcome>)

  function NewSdkState(sink: Sink): SdkState {
    SdkState(sink, map[], 0, Recall(0, 0, 0, 0, 0), Free, map[], map[])
  }

  datatype Reply<+T> = Reply(result: T, sdk: SdkState, books: Books)

  // ---- the operation table -------------------------------------------------------------------------

  /** Every failure waiting for this operation sees one more record. */
  function Appended(numbered: map<Call, Numbered>, id: Id): map<Call, Numbered> {
    map c | c in numbered :: if numbered[c].operationId == id then numbered[c].(appends := numbered[c].appends + 1)
                             else numbered[c]
  }

  function Restarted(numbered: map<Call, Numbered>, id: Id): map<Call, Numbered> {
    map c | c in numbered :: if numbered[c].operationId == id then numbered[c].(restarted := true) else numbered[c]
  }

  /** `State::delete`: out of the table, and out of the ledger. */
  function WithoutOperation(d: SdkState, id: Id): SdkState
    requires id in d.operations
  {
    d.(operations := Removed(d.operations, id), globalBytes := SatSub(d.globalBytes, d.operations[id].bytes),
       numbered := Restarted(d.numbered, id))
  }

  function BeginSection(d: SdkState, b: Books, id: Id, captureId: Id, payload: Option<seq<bv8>>,
                        worldBound: bool): Reply<Result<()>> {
    var record := MakeRecord(Begin, 0, payload);
    if record.Err? then Reply(Err(record.error), d, b)
    else if id in d.operations then Reply(Err(SchemaInvalid), d, b)
    else if !MayReserve(b, id, RecordSize(record.value)) then Reply(Err(RuntimeQuota), d, b)
    else
      var bytes := RecordSize(record.value);
      Reply(Ok(()), d.(operations := d.operations[id := ActiveOperation(bytes, [record.value], captureId, worldBound)],
                       globalBytes := d.globalBytes + bytes),
            Reserved(b, id, bytes))
  }

  function BindSection(d: SdkState, id: Id): (Result<()>, SdkState) {
    if id !in d.operations then (Err(IncompleteCandidate), d)
    else if d.operations[id].worldBound then (Err(SchemaInvalid), d)
    else (Ok(()), d.(operations := d.operations[id := d.operations[id].(worldBound := true)]))
  }

  /** No result yet when the ledger has no room: the operation is then dropped in a section of its own. */
  function AppendSection(d: SdkState, b: Books, id: Id, kind: EventKind,
                         payload: Option<seq<bv8>>): Reply<Option<Result<()>>> {
    if id !in d.operations then Reply(Some(Err(IncompleteCandidate)), d, b)
    else
      var operation := d.operations[id];
      var record := MakeRecord(kind, |operation.records|, payload);
      if record.Err? then Reply(Some(Err(record.error)), d, b)
      else
        var added := RecordSize(record.value);
        if !WithinOperationBounds(operation, added) then
             Reply(Some(Err(RuntimeQuota)), WithoutOperation(d, id), Released(b, id))
        else if !MayGrow(b, id, added) then Reply(None, d.(phase := Dropping(id)), b)
        else
          var longer := operation.(bytes := operation.bytes + added, records := operation.records + [record.value]);
          Reply(Some(Ok(())), d.(operations := d.operations[id := longer], globalBytes := d.globalBytes + added,
                                 numbered := Appended(d.numbered, id)),
                Grown(b, id, added))
  }

  function DropSection(d: SdkState, b: Books): Reply<Result<()>>
    requires d.phase.Dropping? && d.phase.operationId in d.operations
  {
    var id := d.phase.operationId;
    Reply(Err(RuntimeQuota), WithoutOperation(d, id).(phase := Free), Released(b, id))
  }

  /** `succeed`, `cancel`, and with a count `abandon_incomplete`. */
  function ForgetSection(d: SdkState, b: Books, id: Id, counted: bool): Reply<()> {
    if id !in d.operations then Reply((), d, b)
    else
      var d1 := WithoutOperation(d, id);
      Reply((), if counted then d1.(recall := d1.recall.(incomplete := SatAdd(d1.recall.incomplete, 1))) else d1,
            Released(b, id))
  }

  // ---- a failing operation --------------------------------------------------------------------------

  function ObserveSection(d: SdkState): SdkState {
    d.(recall := d.recall.(eligible := SatAdd(d.recall.eligible, 1)))
  }

  /** `failure_record`: the number is the record count of this moment. */
  function NumberSection(d: SdkState, call: Call, id: Id, payload: Option<seq<bv8>>): (Result<EventRecord>, SdkState) {
    if id !in d.operations || !d.operations[id].worldBound then (Err(IncompleteCandidate), d)
    else
      var record := MakeRecord(Failure, |d.operations[id].records|, payload);
      if record.Err? then (record, d)
      else (record, d.(numbered := d.numbered[call := Numbered(id, record.value, 0, false)]))
  }

  function Concluded(d: SdkState, call: Call, outcome: FailOutcome): SdkState {
    d.(phase := Free, recall := Counted(d.recall, outcome), outcomes := d.outcomes[call := outcome])
  }

  /** What validation and encoding say about the sealed candidate. */
  datatype Encoding = Encoding(terminal: Option<seq<bv8>>, valid: bool, storm: Option<nat>,
                               canonicalLength: Option<nat>)

  /** The operation leaves the table and the ledger, and is sealed. */
  function RemoveSection(d: SdkState, b: Books, call: Call, e: Encoding): Reply<()>
    requires call in d.numbered
  {
    var n := d.numbered[call];
    var d0 := d.(numbered := Removed(d.numbered, call));
    if n.operationId !in d0.operations then Reply((), Concluded(d0, call, Rejected), b)
    else
      var operation := d0.operations[n.operationId];
      var d1 := WithoutOperation(d0, n.operationId);
      var sealed := Seal(operation, n.record, e.terminal);
      Reply((),
            if sealed.Err? || !e.valid || e.storm.None? then Concluded(d1, call, Rejected)
            else d1.(phase := Sealed(call, Candidate(operation.captureId, n.operationId, sealed.value,
                                                     e.canonicalLength), e.storm.value)),
            Released(b, n.operationId))
  }

  /** The storm gate, and the candidate's canonical bytes. */
  function AdmitSection(d: SdkState, decision: Decision): SdkState
    requires d.phase.Sealed?
  {
    if !decision.Admitted? then Concluded(d, d.phase.call, Suppressed(decision))
    else if d.phase.candidate.canonicalLength.None? then Concluded(d, d.phase.call, Rejected)
    else d.(phase := Passed(d.phase.call, d.phase.candidate))
  }

  function Length(c: Candidate): nat {
    if c.canonicalLength.Some? then c.canonicalLength.value else 0
  }

  function HandOffSection(d: SdkState, b: Books): Reply<()>
    requires d.phase.Passed?
  {
    var c := d.phase.candidate;
    if Length(c) > MAX_OPERATION_BYTES || !MayHandOff(b, c.captureId, Length(c)) then
         Reply((), Concluded(d, d.phase.call, QueueFull), b)
    else Reply((), d.(phase := HandedOff(d.phase.call, c)), Entered(b, c.captureId, Length(c), Handoff))
  }

  /** A retaining sink claims the candidate. */
  function ClaimSection(d: SdkState, b: Books): Reply<()>
    requires d.phase.HandedOff?
  {
    var c := d.phase.candidate;
    if Claimable(b, c.captureId, Length(c)) then
      Reply((), d.(phase := InSink(d.phase.call, c)), Claimed(b, c.captureId, Length(c)))
    else Reply((), d.(phase := Declined(d.phase.call, c)), b)
  }

  /** A plain sink answers, or a managed one does before it claims or after it was claimed. */
  function AnswerSection(d: SdkState, sent: bool): SdkState
    requires d.phase.HandedOff? || d.phase.InSink? || d.phase.Declined?
  {
    if d.phase.InSink? && !sent then d.(phase := Refusing(d.phase.call, d.phase.candidate))
    else d.(phase := Sent(d.phase.call, d.phase.candidate, sent))
  }

  function GiveUpSection(d: SdkState, b: Books): Reply<()>
    requires d.phase.Refusing?
  {
    Reply((), d.(phase := Sent(d.phase.call, d.phase.candidate, false)), Returned(b, d.phase.candidate.captureId))
  }

  /** `candidate_is_retained`, which only matters for a sink that retains. */
  function CheckSection(d: SdkState, b: Books): SdkState
    requires d.phase.Sent?
  {
    d.(phase := Checked(d.phase.call, d.phase.candidate, d.phase.sent,
                        !d.sink.PlainSink? && IsRetained(b, d.phase.candidate.captureId)))
  }

  /** A candidate that is not retained is released; the call ends. */
  function SettleSection(d: SdkState, b: Books): Reply<()>
    requires d.phase.Checked?
  {
    var p := d.phase;
    Reply((), Concluded(d, p.call, if p.sent && (d.sink.PlainSink? || p.retained) then Delivered else Refused),
          if p.retained then b else Returned(b, p.candidate.captureId))
  }

  // ---- a local recorder ------------------------------------------------------------------------------

  datatype RecorderState = RecorderState(operationId: Id, bytes: nat, candidate: Option<Candidate>, incomplete: nat)

  function NewRecorderState(operationId: Id): RecorderState {
    RecorderState(operationId, 0, None, 0)
  }

  predicate Accepts(r: RecorderState, c: Candidate) {
    c.operationId == r.operationId && Length(c) <= MAX_OPERATION_BYTES && r.candidate.None?
  }

  /** `try_send` after the claim: the candidate is kept, or counted as incomplete. */
  function KeepSection(r: RecorderState, c: Candidate, claimed: bool): (bool, RecorderState) {
    if claimed && Accepts(r, c) then (true, r.(bytes := Length(c), candidate := Some(c)))
    else (false, r.(incomplete := SatAdd(r.incomplete, 1)))
  }

  /** `take_failed_candidate`, before it gives the bytes back. */
  function TakeSection(r: RecorderState): (Option<Candidate>, RecorderState) {
    (r.candidate, r.(bytes := 0, candidate := None))
  }
}
