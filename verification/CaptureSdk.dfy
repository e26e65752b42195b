// The Sdk and the local recorder as objects. One method is one section of module Sections; what a call
// keeps in its own variables between two sections is passed from method to method.

module CaptureSdk {
  import opened CandidateEntries
  import opened Ledger
  import opened MapSums
  import opened Options
  import opened Records
  import opened Sections
  import opened StormGate
  import opened Arith
  import CaptureRuns

  class LocalRecorder {
    const resources: ProcessResources
    const operationId: Id
    var bytes: nat
    var candidate: Option<Candidate>
    var incomplete: nat

    function State(): RecorderState
      reads this
    {
      RecorderState(operationId, bytes, candidate, incomplete)
    }

    constructor (operationId: Id, resources: ProcessResources)
      ensures State() == NewRecorderState(operationId) && this.resources == resources
    {
      this.operationId, this.resources := operationId, resources;
      bytes, candidate, incomplete := 0, None, 0;
    }

    /** Under the recorder's own lock, after the claim. */
    method Keep(c: Candidate, claimed: bool) returns (sent: bool)
      requires c.canonicalLength.Some?
      modifies this
      ensures (sent, State()) == KeepSection(old(State()), c, claimed)
    {
      if !claimed || c.operationId != operationId || c.canonicalLength.value > MAX_OPERATION_BYTES || candidate.Some? {
        incomplete := SatAdd(incomplete, 1);
        return false;
      }
      bytes := c.canonicalLength.value;
      candidate := Some(c);
      return true;
    }

    /** Under the recorder's own lock; the bytes are given back in a section of the ledger afterwards. */
    method TakeOut() returns (taken: Option<Candidate>)
      modifies this
      ensures (taken, State()) == TakeSection(old(State()))
    {
      taken := candidate;
      candidate := None;
      bytes := 0;
    }

    method GiveBack(taken: Option<Candidate>)
      requires Balanced(resources.State())
      modifies resources`candidates, resources`candidateBytes
      ensures Balanced(resources.State())
      ensures resources.State() == if taken.Some? then Returned(old(resources.State()), taken.value.captureId)
                                   else old(resources.State())
    {
      if taken.Some? {
        resources.ReleaseCandidate(taken.value.captureId);
      }
    }

    /** The recorder's end of life: a candidate nobody took gives its bytes back. */
    method Drop()
      requires Balanced(resources.State())
      modifies resources`candidates, resources`candidateBytes
      ensures Balanced(resources.State())
      ensures resources.State() == if candidate.Some? then Returned(old(resources.State()), candidate.value.captureId)
                                   else old(resources.State())
    {
      GiveBack(candidate);
    }
  }

  class Sdk {
    const resources: ProcessResources
    const recorder: LocalRecorder
    var globalBytes: nat
    var operations: map<Id, ActiveOperation>
    var recall: Recall
    /** The name of the recorder, how far a call has come, the numbered failures, and how calls ended. */
    ghost const name: Id
    ghost var phase: Phase
    ghost var numbered: map<Call, Numbered>
    ghost var outcomes: map<Call, FailOutcome>

    ghost function State(): SdkState
      reads this
    {
      SdkState(RecorderSink(name), operations, globalBytes, recall, phase, numbered, outcomes)
    }

    constructor (resources: ProcessResources, recorder: LocalRecorder, ghost name: Id)
      ensures this.resources == resources && this.recorder == recorder && State() == NewSdkState(RecorderSink(name))
    {
      this.resources, this.recorder, this.name := resources, recorder, name;
      globalBytes, operations, recall := 0, map[], Recall(0, 0, 0, 0, 0);
      phase, numbered, outcomes := Free, map[], map[];
    }

    method Begin(operationId: Id, captureId: Id, payload: Option<seq<bv8>>, worldBound: bool)
      returns (result: Result<()>)
      requires Balanced(resources.State()) && phase.Free?
      modifies this, resources`active, resources`activeBytes
      ensures Balanced(resources.State())
      ensures Reply(result, State(), resources.State()) ==
              BeginSection(old(State()), old(resources.State()), operationId, captureId, payload, worldBound)
    {
      hide Balanced, RecordSize;
      var record := MakeRecord(EventKind.Begin, 0, payload);
      if record.Err? {
        return Err(record.error);
      }
      var recordBytes := RecordSize(record.value);
      if operationId in operations {
        return Err(SchemaInvalid);
      }
      var reserved := resources.ReserveOperation(operationId, recordBytes);
      if !reserved {
        return Err(RuntimeQuota);
      }
      globalBytes := globalBytes + recordBytes;
      operations := operations[operationId := ActiveOperation(recordBytes, [record.value], captureId, worldBound)];
      return Ok(());
    }

    /** Bind the automatic world: once for each operation. */
    method BindAutomaticWorld(operationId: Id) returns (result: Result<()>)
      requires phase.Free?
      modifies this`operations
      ensures (result, State()) == BindSection(old(State()), operationId)
    {
      if operationId !in operations {
        return Err(IncompleteCandidate);
      }
      if operations[operationId].worldBound {
        return Err(SchemaInvalid);
      }
      operations := operations[operationId := operations[operationId].(worldBound := true)];
      return Ok(());
    }

    /** Forget an operation here and in the ledger. */
    method Delete(operationId: Id)
      requires Balanced(resources.State()) && operationId in operations
      modifies this`operations, this`globalBytes, this`numbered, resources`active, resources`activeBytes
      ensures Balanced(resources.State())
      ensures State() == WithoutOperation(old(State()), operationId)
              && resources.State() == Released(old(resources.State()), operationId)
    {
      hide Balanced;
      var operation := operations[operationId];
      operations := Removed(operations, operationId);
      globalBytes := SatSub(globalBytes, operation.bytes);
      numbered := Restarted(numbered, operationId);
      resources.ReleaseOperation(operationId);
    }

    /** `succeed`, `cancel`, and with a count `abandon_incomplete`. */
    method Forget(operationId: Id, counted: bool)
      requires Balanced(resources.State()) && phase.Free?
      modifies this, resources`active, resources`activeBytes
      ensures Balanced(resources.State())
      ensures Reply((), State(), resources.State())
              == ForgetSection(old(State()), old(resources.State()), operationId, counted)
    {
      hide Balanced, Released;
      if operationId in operations {
        Delete(operationId);
        if counted {
          recall := recall.(incomplete := SatAdd(recall.incomplete, 1));
        }
      }
    }

    /** An append up to its section of the ledger; without a result the operation must be dropped next. */
    method Append(operationId: Id, kind: EventKind, payload: Option<seq<bv8>>) returns (result: Option<Result<()>>)
      requires Balanced(resources.State()) && phase.Free?
      modifies this, resources`active, resources`activeBytes
      ensures Balanced(resources.State())
      ensures Reply(result, State(), resources.State())
              == AppendSection(old(State()), old(resources.State()), operationId, kind, payload)
    {
      hide Balanced, RecordSize, Released, WithoutOperation, Appended;
      if operationId !in operations {
        return Some(Err(IncompleteCandidate));
      }
      var operation := operations[operationId];
      var record := MakeRecord(kind, |operation.records|, payload);
      if record.Err? {
        return Some(Err(record.error));
      }
      var addedBytes := RecordSize(record.value);
      if !WithinOperationBounds(operation, addedBytes) {
        Delete(operationId);
        return Some(Err(RuntimeQuota));
      }
      var grown := resources.GrowOperation(operationId, addedBytes);
      if !grown {
        phase := Dropping(operationId);
        return None;
      }
      operations := operations[operationId := operation.(bytes := operation.bytes + addedBytes,
                                                         records := operation.records + [record.value])];
      globalBytes := globalBytes + addedBytes;
      numbered := Appended(numbered, operationId);
      return Some(Ok(()));
    }

    /** The end of an append that found no room. */
    method DropOperation(operationId: Id) returns (result: Result<()>)
      requires Balanced(resources.State()) && phase == Dropping(operationId) && operationId in operations
      modifies this, resources`active, resources`activeBytes
      ensures Balanced(resources.State())
      ensures Reply(result, State(), resources.State()) == DropSection(old(State()), old(resources.State()))
    {
      hide Balanced, Released;
      Delete(operationId);
      phase := Free;
      return Err(RuntimeQuota);
    }

    // ---- fail: one method for each section ------------------------------------------------------------

    method Observe()
      requires phase.Free?
      modifies this`recall
      ensures State() == ObserveSection(old(State()))
    {
      recall := recall.(eligible := SatAdd(recall.eligible, 1));
    }

    method FailureRecord(ghost call: Call, operationId: Id, payload: Option<seq<bv8>>)
      returns (result: Result<EventRecord>)
      requires phase.Free?
      modifies this`numbered
      ensures (result, State()) == NumberSection(old(State()), call, operationId, payload)
    {
      if operationId !in operations {
        return Err(IncompleteCandidate);
      }
      if !operations[operationId].worldBound {
        return Err(IncompleteCandidate);
      }
      result := MakeRecord(Failure, |operations[operationId].records|, payload);
      if result.Ok? {
        numbered := numbered[call := Numbered(operationId, result.value, 0, false)];
      }
    }

    ghost method Conclude(call: Call, outcome: FailOutcome)
      modifies this`phase, this`outcomes
      ensures phase == Free && outcomes == old(outcomes)[call := outcome]
    {
      phase := Free;
      outcomes := outcomes[call := outcome];
    }

    /** The operation leaves the table and the ledger, and is sealed. */
    method Remove(ghost call: Call, operationId: Id, failure: EventRecord, e: Encoding)
      returns (sealed: Option<Candidate>)
      requires Balanced(resources.State()) && phase.Free?
      requires call in numbered && numbered[call].operationId == operationId && numbered[call].record == failure
      modifies this, resources`active, resources`activeBytes
      ensures Balanced(resources.State())
      ensures Reply((), State(), resources.State()) == RemoveSection(old(State()), old(resources.State()), call, e)
      ensures sealed == if phase.Sealed? then Some(phase.candidate) else None
    {
      hide Balanced, Released, Seal;
      numbered := MapSums.Removed(numbered, call);
      if operationId !in operations {
        Conclude(call, Rejected);
        return None;
      }
      var operation := operations[operationId];
      Delete(operationId);
      var records := Seal(operation, failure, e.terminal);
      if records.Err? || !e.valid || e.storm.None? {
        Conclude(call, Rejected);
        return None;
      }
      var candidate := Candidate(operation.captureId, operationId, records.value, e.canonicalLength);
      phase := Sealed(call, candidate, e.storm.value);
      return Some(candidate);
    }

    /** The storm gate: a section of the ledger's lock. */
    method Admit(ghost call: Call, candidate: Candidate, identity: nat, nowMs: nat)
      returns (passed: bool, ghost decided: Decision)
      requires phase == Sealed(call, candidate, identity)
      requires resources.storm.Valid() && resources.storm.lastRefillMs <= nowMs <= U64_MAX
      modifies this, resources.storm
      ensures resources.storm.Valid() && decided == CaptureRuns.Decide(old(resources.storm.history), identity, nowMs)
      ensures State() == AdmitSection(old(State()), decided) && (passed <==> phase.Passed?)
    {
      hide GateInv, RecentlyAdmitted, RateAllows, StormGate.Retained;
      var decision := resources.storm.Admit(identity, nowMs);
      decided := decision;
      if decision == SuppressedExact {
        recall := recall.(suppressedExact := SatAdd(recall.suppressedExact, 1));
        Conclude(call, Suppressed(decision));
        return false, decision;
      }
      if decision == SuppressedHighCardinality {
        recall := recall.(suppressedHighCardinality := SatAdd(recall.suppressedHighCardinality, 1));
        Conclude(call, Suppressed(decision));
        return false, decision;
      }
      if candidate.canonicalLength.None? {
        Conclude(call, Rejected);
        return false, decision;
      }
      phase := Passed(call, candidate);
      return true, decision;
    }

    method HandOff(ghost call: Call, candidate: Candidate) returns (ok: bool)
      requires Balanced(resources.State()) && phase == Passed(call, candidate) && candidate.canonicalLength.Some?
      modifies this, resources`candidates, resources`candidateBytes
      ensures Balanced(resources.State())
      ensures Reply((), State(), resources.State()) == HandOffSection(old(State()), old(resources.State()))
              && (ok <==> phase.HandedOff?)
    {
      hide Balanced;
      var length := candidate.canonicalLength.value;
      ok := false;
      if length <= MAX_OPERATION_BYTES {
        ok := resources.ReserveCandidateHandoff(candidate.captureId, length);
      }
      if !ok {
        recall := recall.(queueFull := SatAdd(recall.queueFull, 1));
        Conclude(call, QueueFull);
        return;
      }
      phase := HandedOff(call, candidate);
    }

    /** In the recorder's `try_send`: the section of the ledger. */
    method Claim(ghost call: Call, candidate: Candidate) returns (ok: bool)
      requires Balanced(resources.State()) && phase == HandedOff(call, candidate) && candidate.canonicalLength.Some?
      modifies this`phase, resources`candidates, resources`candidateBytes
      ensures Balanced(resources.State())
      ensures Reply((), State(), resources.State()) == ClaimSection(old(State()), old(resources.State()))
              && (ok <==> phase.InSink?)
    {
      hide Balanced;
      ok := resources.ClaimCandidate(candidate.captureId, candidate.canonicalLength.value);
      phase := if ok then InSink(call, candidate) else Declined(call, candidate);
    }

    /** The recorder's answer; a claim that it will not keep is given back by `GiveUp`. */
    method Send(ghost call: Call, candidate: Candidate, claimed: bool) returns (sent: bool)
      requires phase == (if claimed then InSink(call, candidate) else Declined(call, candidate))
               && candidate.canonicalLength.Some?
      modifies this`phase, recorder
      ensures (sent, recorder.State()) == KeepSection(old(recorder.State()), candidate, claimed)
      ensures State() == AnswerSection(old(State()), sent)
    {
      sent := recorder.Keep(candidate, claimed);
      phase := if claimed && !sent then Refusing(call, candidate) else Sent(call, candidate, sent);
    }

    method GiveUp(ghost call: Call, candidate: Candidate)
      requires Balanced(resources.State()) && phase == Refusing(call, candidate)
      modifies this`phase, resources`candidates, resources`candidateBytes
      ensures Balanced(resources.State())
      ensures Reply((), State(), resources.State()) == GiveUpSection(old(State()), old(resources.State()))
    {
      hide Balanced, Returned;
      resources.ReleaseCandidate(candidate.captureId);
      phase := Sent(call, candidate, false);
    }

    method Check(ghost call: Call, candidate: Candidate, sent: bool) returns (retained: bool)
      requires phase == Sent(call, candidate, sent)
      modifies this`phase
      ensures State() == CheckSection(old(State()), resources.State())
              && phase == Checked(call, candidate, sent, retained)
    {
      retained := resources.CandidateIsRetained(candidate.captureId);
      phase := Checked(call, candidate, sent, retained);
    }

    method Settle(ghost call: Call, candidate: Candidate, sent: bool, retained: bool) returns (ok: bool)
      requires Balanced(resources.State()) && phase == Checked(call, candidate, sent, retained)
      modifies this`phase, this`outcomes, resources`candidates, resources`candidateBytes
      ensures Balanced(resources.State())
      ensures Reply((), State(), resources.State()) == SettleSection(old(State()), old(resources.State()))
      ensures outcomes == old(outcomes)[call := if ok then Delivered else Refused]
    {
      hide Balanced, Returned;
      if !retained {
        resources.ReleaseCandidate(candidate.captureId);
      }
      ok := sent && retained;
      Conclude(call, if ok then Delivered else Refused);
    }

    // ---- the end of an Sdk ------------------------------------------------------------------------------

    /** Releases one operation after another; each release is a section of its own. */
    method Drop()
      requires Balanced(resources.State()) && phase.Free?
      modifies this, resources`active, resources`activeBytes
      ensures Balanced(resources.State()) && operations == map[]
      ensures forall id :: id in resources.active <==> id in old(resources.active) && id !in old(operations)
      ensures resources.State()
              == old(resources.State()).(active := resources.active, activeBytes := resources.activeBytes)
    {
      hide Balanced, WithoutOperation;
      phase := Ending;
      while operations != map[]
        invariant Balanced(resources.State()) && phase.Ending?
        invariant operations.Keys <= old(operations).Keys
        invariant forall id ::
                    id in resources.active <==>
                    id in old(resources.active) && (id !in old(operations) || id in operations)
        invariant resources.State()
                  == old(resources.State()).(active := resources.active, activeBytes := resources.activeBytes)
        decreases |operations|
      {
        var id := SomeKey(operations);
        RemovedSize(operations, id);
        DropOne(id);
      }
    }

    method DropOne(id: Id)
      requires Balanced(resources.State()) && phase.Ending? && id in operations
      modifies this, resources`active, resources`activeBytes
      ensures Balanced(resources.State()) && State() == WithoutOperation(old(State()), id) && phase.Ending?
      ensures operations == MapSums.Removed(old(operations), id)
              && resources.active == MapSums.Removed(old(resources.active), id)
      ensures resources.State() == Released(old(resources.State()), id)
    {
      hide Balanced;
      ReleasedBalances(resources.State(), id);
      Delete(id);
    }
  }
}
