// The records of one operation, and what sealing a failing operation makes of them.

module Records {
  import opened Arith
  import opened CandidateEntries
  import opened MapSums
  import opened Options

  const MAX_OPERATION_BYTES: nat := 262_144
  const MAX_EVENT_BYTES: nat := 65_536
  const MAX_EVENTS: nat := 1_024

  datatype Error = RuntimeQuota | IncompleteCandidate | SchemaInvalid
  datatype Result<+T> = Ok(value: T) | Err(error: Error)

  datatype EventKind = Begin | Input | Dependency | Observation | ObservationFence | Failure | Terminal

  /** A record keeps its canonical payload; its stored text is the unpadded base64url form. */
  datatype EventRecord = EventRecord(kind: EventKind, payload: seq<bv8>, sequence: nat)

  datatype ActiveOperation = ActiveOperation(bytes: nat, records: seq<EventRecord>, captureId: Id, worldBound: bool)

  /** `canonicalLength` is the length of the candidate's canonical bytes, when they exist. */
  datatype Candidate = Candidate(captureId: Id, operationId: Id, records: seq<EventRecord>,
                                 canonicalLength: Option<nat>)

  function Base64UrlLength(n: nat): nat {
    (4 * n + 2) / 3
  }

  function RecordSize(record: EventRecord): nat {
    SatAdd(Base64UrlLength(|record.payload|), 32)
  }

  /** `payload` is the canonical encoding, or None when the payload has none. */
  function MakeRecord(kind: EventKind, sequence: nat, payload: Option<seq<bv8>>): Result<EventRecord> {
    if payload.None? then Err(SchemaInvalid)
    else if |payload.value| > MAX_EVENT_BYTES then Err(RuntimeQuota)
    else Ok(EventRecord(kind, payload.value, sequence))
  }

  /** The payload has a canonical encoding that fits one record. */
  predicate Recordable(payload: Option<seq<bv8>>) {
    payload.Some? && |payload.value| <= MAX_EVENT_BYTES
  }

  /** The bytes a recordable payload is accounted with: its base64url text and a fixed overhead. */
  function StoredSize(payload: Option<seq<bv8>>): nat {
    if payload.Some? then Base64UrlLength(|payload.value|) + 32 else 0
  }

  function SizeOf(records: seq<EventRecord>): nat {
    if records == [] then 0 else SizeOf(records[..|records| - 1]) + RecordSize(records[|records| - 1])
  }

  lemma SizeOfAppend(records: seq<EventRecord>, record: EventRecord)
    ensures SizeOf(records + [record]) == SizeOf(records) + RecordSize(record)
  {
    assert (records + [record])[..|records|] == records;
  }

  /** Every record carries its own index as its sequence number. */
  predicate Contiguous(records: seq<EventRecord>) {
    forall i :: 0 <= i < |records| ==> records[i].sequence == i
  }

  predicate WithinOperationBounds(operation: ActiveOperation, addedBytes: nat) {
    |operation.records| < MAX_EVENTS && SatAdd(operation.bytes, addedBytes) <= MAX_OPERATION_BYTES
  }

  /** What every stored operation satisfies. */
  predicate WellFormed(operation: ActiveOperation) {
    && operation.bytes == SizeOf(operation.records) <= MAX_OPERATION_BYTES
    && 1 <= |operation.records| <= MAX_EVENTS
    && Contiguous(operation.records)
  }

  lemma FirstRecord(record: EventRecord, captureId: Id, worldBound: bool)
    requires record.sequence == 0 && |record.payload| <= MAX_EVENT_BYTES
    ensures WellFormed(ActiveOperation(RecordSize(record), [record], captureId, worldBound))
  {
    SizeOfAppend([], record);
    assert [] + [record] == [record];
  }

  lemma NextRecord(operation: ActiveOperation, record: EventRecord)
    requires WellFormed(operation) && record.sequence == |operation.records|
             && WithinOperationBounds(operation, RecordSize(record))
    ensures WellFormed(operation.(bytes := operation.bytes + RecordSize(record),
                                  records := operation.records + [record]))
  {
    SizeOfAppend(operation.records, record);
  }

  /** The last part of a failing operation: the failure record, then the terminal record. */
  function Seal(operation: ActiveOperation, failure: EventRecord,
                terminalPayload: Option<seq<bv8>>): Result<seq<EventRecord>> {
    var added := RecordSize(failure);
    if !WithinOperationBounds(operation, added) then Err(RuntimeQuota)
    else
      var records := operation.records + [failure];
      var terminal := MakeRecord(Terminal, |records|, terminalPayload);
      if terminal.Err? then Err(terminal.error)
      else if SatAdd(SatAdd(operation.bytes, added), RecordSize(terminal.value)) > MAX_OPERATION_BYTES then
            Err(RuntimeQuota)
      else Ok(records + [terminal.value])
  }

  /** A sealed candidate is contiguous exactly when the failure record was numbered from the
      same record count it is appended to: no append came between the two lock sections. */
  lemma SealedContiguousIff(operation: ActiveOperation, failure: EventRecord, terminalPayload: Option<seq<bv8>>)
    requires WellFormed(operation) && Seal(operation, failure, terminalPayload).Ok?
    ensures var records := Seal(operation, failure, terminalPayload).value;
            && (Contiguous(records) <==> failure.sequence == |operation.records|)
            && SizeOf(records) <= MAX_OPERATION_BYTES && |records| <= MAX_EVENTS + 1
            && records[..|operation.records|] == operation.records
  {
    var records := Seal(operation, failure, terminalPayload).value;
    var n := |operation.records|;
    assert records[n] == failure;
    SizeOfAppend(operation.records, failure);
    SizeOfAppend(operation.records + [failure], records[n + 1]);
    if failure.sequence == n {
      forall i | 0 <= i < |records| ensures records[i].sequence == i {
        if i < n { assert records[i] == operation.records[i]; }
      }
    }
  }

  ghost predicate AllWellFormed(operations: map<Id, ActiveOperation>) {
    forall id :: id in operations ==> WellFormed(operations[id])
  }

  lemma AllWellFormedAfter(operations: map<Id, ActiveOperation>, id: Id, o: ActiveOperation)
    requires AllWellFormed(operations)
    ensures AllWellFormed(Removed(operations, id))
    ensures WellFormed(o) ==> AllWellFormed(operations[id := o])
    ensures id in operations ==> WellFormed(operations[id])
  {
  }

  function OperationBytes(operations: map<Id, ActiveOperation>): map<Id, nat> {
    map id | id in operations :: operations[id].bytes
  }

  ghost function OperationTotal(operations: map<Id, ActiveOperation>): nat {
    Sum(OperationBytes(operations))
  }

  lemma OperationTotalPut(operations: map<Id, ActiveOperation>, id: Id, o: ActiveOperation)
    ensures OperationTotal(operations[id := o]) ==
            OperationTotal(operations) - (if id in operations then operations[id].bytes else 0) + o.bytes
  {
    assert OperationBytes(operations[id := o]) == OperationBytes(operations)[id := o.bytes];
    if id in operations {
      SumUpdate(OperationBytes(operations), id, o.bytes);
    } else {
      SumInsert(OperationBytes(operations), id, o.bytes);
    }
  }

  lemma OperationTotalRemove(operations: map<Id, ActiveOperation>, id: Id)
    requires id in operations
    ensures OperationTotal(Removed(operations, id)) == OperationTotal(operations) - operations[id].bytes
  {
    assert OperationBytes(Removed(operations, id)) == Removed(OperationBytes(operations), id);
    SumRemoved(OperationBytes(operations), id);
  }
}
