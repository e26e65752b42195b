// The process-wide byte ledger: operation bytes, candidate bytes and logical capture bytes. One method
// is one section under the ledger's lock; the functions beside it say what the section decides and does.

module Ledger {
  import opened Arith
  import opened CandidateEntries
  import opened MapSums
  import opened StormGate

  const MAX_ACTIVE_OPERATIONS: nat := 512
  const MAX_PROCESS_CAPTURE_BYTES: nat := 4 * 1_024 * 1_024 * 1_024

  /** What the ledger stores about operations and candidates. */
  datatype Books = Books(active: map<Id, nat>, activeBytes: nat, candidates: map<Id, CandidateEntry>,
                         candidateBytes: nat)

  const EMPTY_BOOKS: Books := Books(map[], 0, map[], 0)

  /** The totals are the exact sums of the entries and stay within the limits of the process. */
  ghost predicate Balanced(b: Books) {
    && b.activeBytes == Sum(b.active)
    && b.candidateBytes == CandidateTotal(b.candidates)
    && b.activeBytes + b.candidateBytes <= MAX_GLOBAL_BYTES
    && |b.active| <= MAX_ACTIVE_OPERATIONS
    && |b.candidates| <= MAX_QUEUED_CANDIDATES
  }

  /** `bytes_with`: there is room for that many more operation or candidate bytes. */
  predicate Fits(b: Books, added: nat) {
    b.activeBytes + b.candidateBytes + added <= MAX_GLOBAL_BYTES
  }

  predicate MayReserve(b: Books, id: Id, bytes: nat) {
    id !in b.active && |b.active| < MAX_ACTIVE_OPERATIONS && Fits(b, bytes)
  }

  function Reserved(b: Books, id: Id, bytes: nat): Books {
    b.(active := b.active[id := bytes], activeBytes := b.activeBytes + bytes)
  }

  predicate MayGrow(b: Books, id: Id, added: nat) {
    id in b.active && Fits(b, added)
  }

  function Grown(b: Books, id: Id, added: nat): Books
    requires id in b.active
  {
    b.(active := b.active[id := SatAdd(b.active[id], added)], activeBytes := b.activeBytes + added)
  }

  /** `release_operation`: an unknown operation changes nothing. */
  function Released(b: Books, id: Id): Books {
    if id in b.active then b.(active := Removed(b.active, id), activeBytes := SatSub(b.activeBytes, b.active[id]))
    else b
  }

  predicate MayHandOff(b: Books, id: Id, bytes: nat) {
    id !in b.candidates && |b.candidates| < MAX_QUEUED_CANDIDATES && Fits(b, bytes)
  }

  function Entered(b: Books, id: Id, bytes: nat, state: CandidateState): Books {
    b.(candidates := b.candidates[id := CandidateEntry(bytes, state)], candidateBytes := b.candidateBytes + bytes)
  }

  /** The entry was handed off with this size, or there is none and room for one. */
  predicate Claimable(b: Books, id: Id, bytes: nat) {
    if id in b.candidates then b.candidates[id] == CandidateEntry(bytes, Handoff) else MayHandOff(b, id, bytes)
  }

  /** Takes a handed-off entry over, or opens a new retained one. */
  function Claimed(b: Books, id: Id, bytes: nat): Books {
    if id in b.candidates then b.(candidates := b.candidates[id := CandidateEntry(bytes, Retained)])
    else Entered(b, id, bytes, Retained)
  }

  predicate IsRetained(b: Books, id: Id) {
    id in b.candidates && b.candidates[id].state == Retained
  }

  /** `release_candidate`: an unknown candidate changes nothing. */
  function Returned(b: Books, id: Id): Books {
    if id in b.candidates then
      b.(candidates := Removed(b.candidates, id), candidateBytes := SatSub(b.candidateBytes, b.candidates[id].bytes))
    else b
  }

  // ---- every section keeps the balance, and no saturating subtraction saturates ---------------------

  lemma ReservedBalances(b: Books, id: Id, bytes: nat)
    requires Balanced(b) && MayReserve(b, id, bytes)
    ensures Balanced(Reserved(b, id, bytes))
  {
    SumInsert(b.active, id, bytes);
  }

  lemma GrownBalances(b: Books, id: Id, added: nat)
    requires Balanced(b) && MayGrow(b, id, added)
    ensures Balanced(Grown(b, id, added)) && Grown(b, id, added).active[id] == b.active[id] + added
  {
    SumRemove(b.active, id);
    SumUpdate(b.active, id, b.active[id] + added);
  }

  lemma ReleasedBalances(b: Books, id: Id)
    requires Balanced(b)
    ensures Balanced(Released(b, id)) && Released(b, id).active == Removed(b.active, id)
    ensures Released(b, id).activeBytes == b.activeBytes - if id in b.active then b.active[id] else 0
  {
    RemovedSize(b.active, id);
    if id in b.active {
      SumRemoved(b.active, id);
    } else {
      RemovedAbsent(b.active, id);
    }
  }

  lemma EnteredBalances(b: Books, id: Id, bytes: nat, state: CandidateState)
    requires Balanced(b) && MayHandOff(b, id, bytes)
    ensures Balanced(Entered(b, id, bytes, state))
  {
    CandidateTotalPut(b.candidates, id, CandidateEntry(bytes, state));
  }

  lemma ClaimedBalances(b: Books, id: Id, bytes: nat)
    requires Balanced(b) && Claimable(b, id, bytes)
    ensures Balanced(Claimed(b, id, bytes))
            && Claimed(b, id, bytes).candidates == b.candidates[id := CandidateEntry(bytes, Retained)]
  {
    if id in b.candidates {
      CandidateTotalPut(b.candidates, id, CandidateEntry(bytes, Retained));
    } else {
      EnteredBalances(b, id, bytes, Retained);
    }
  }

  lemma ReturnedBalances(b: Books, id: Id)
    requires Balanced(b)
    ensures Balanced(Returned(b, id)) && Returned(b, id).candidates == Removed(b.candidates, id)
    ensures Returned(b, id).candidateBytes == b.candidateBytes - if id in b.candidates then b.candidates[id].bytes
                                                                 else 0
  {
    hide Sum;
    RemovedSize(b.candidates, id);
    if id in b.candidates {
      CandidateTotalRemove(b.candidates, id);
    } else {
      RemovedAbsent(b.candidates, id);
    }
  }

  /** A handoff is claimed with the size it was reserved with, and once; a capture never has two entries. */
  lemma ClaimedOnce(b: Books, id: Id, bytes: nat, claimed: nat)
    requires Balanced(b)
    ensures MayHandOff(b, id, bytes) ==>
              && (Claimable(Entered(b, id, bytes, Handoff), id, claimed) <==> claimed == bytes)
              && !MayHandOff(Entered(b, id, bytes, Handoff), id, claimed)
              && !IsRetained(Entered(b, id, bytes, Handoff), id)
    ensures Claimable(b, id, bytes) ==>
              && IsRetained(Claimed(b, id, bytes), id) && !Claimable(Claimed(b, id, bytes), id, claimed)
              && !MayHandOff(Claimed(b, id, bytes), id, claimed)
              && !IsRetained(Returned(Claimed(b, id, bytes), id), id)
  {
    hide Sum, CandidateTotal;
  }

  // ---- the ledger object ---------------------------------------------------------------------------

  class ProcessResources {
    var active: map<Id, nat>
    var activeBytes: nat
    var candidates: map<Id, CandidateEntry>
    var candidateBytes: nat
    var captureBytes: nat
    const storm: FailureStormGate
    /** What every live logical reservation holds. */
    ghost var reservations: map<LogicalByteReservation, nat>

    function State(): Books
      reads this
    {
      Books(active, activeBytes, candidates, candidateBytes)
    }

    /** Capture bytes are the exact sum of all live reservations. */
    ghost predicate CaptureBalanced()
      reads this
    {
      captureBytes == Sum(reservations) <= MAX_PROCESS_CAPTURE_BYTES
    }

    constructor ()
      ensures State() == EMPTY_BOOKS && Balanced(State()) && CaptureBalanced()
      ensures fresh(storm) && storm.Valid() && storm.history == [] && reservations == map[] && captureBytes == 0
    {
      active, activeBytes, candidates, candidateBytes, captureBytes := map[], 0, map[], 0, 0;
      reservations := map[];
      storm := new FailureStormGate();
      new;
      assert CandidateBytes(candidates) == map[];
    }

    /** No room, or a total beyond the machine's integers. */
    predicate Full(added: nat)
      reads this
    {
      var total := activeBytes + candidateBytes + added;
      total > U64_MAX || total > MAX_GLOBAL_BYTES
    }

    method ReserveOperation(operationId: Id, bytes: nat) returns (ok: bool)
      requires Balanced(State())
      modifies this`active, this`activeBytes
      ensures Balanced(State())
      ensures ok <==> MayReserve(old(State()), operationId, bytes)
      ensures State() == if ok then Reserved(old(State()), operationId, bytes) else old(State())
    {
      hide CandidateTotal, Sum;
      if operationId in active || |active| >= MAX_ACTIVE_OPERATIONS || Full(bytes) {
        return false;
      }
      ReservedBalances(State(), operationId, bytes);
      activeBytes := activeBytes + bytes;
      active := active[operationId := bytes];
      return true;
    }

    method GrowOperation(operationId: Id, addedBytes: nat) returns (ok: bool)
      requires Balanced(State())
      modifies this`active, this`activeBytes
      ensures Balanced(State())
      ensures ok <==> MayGrow(old(State()), operationId, addedBytes)
      ensures State() == if ok then Grown(old(State()), operationId, addedBytes) else old(State())
    {
      hide CandidateTotal, Sum;
      if Full(addedBytes) {
        return false;
      }
      if operationId !in active {
        return false;
      }
      GrownBalances(State(), operationId, addedBytes);
      active := active[operationId := SatAdd(active[operationId], addedBytes)];
      activeBytes := activeBytes + addedBytes;
      return true;
    }

    method ReleaseOperation(operationId: Id)
      requires Balanced(State())
      modifies this`active, this`activeBytes
      ensures Balanced(State()) && State() == Released(old(State()), operationId)
      ensures active == Removed(old(active), operationId)
    {
      hide CandidateTotal, Sum, Removed;
      ReleasedBalances(State(), operationId);
      if operationId in active {
        var bytes := active[operationId];
        active := Removed(active, operationId);
        activeBytes := SatSub(activeBytes, bytes);
      }
    }

    method ReserveCandidateHandoff(captureId: Id, bytes: nat) returns (ok: bool)
      requires Balanced(State())
      modifies this`candidates, this`candidateBytes
      ensures Balanced(State())
      ensures ok <==> MayHandOff(old(State()), captureId, bytes)
      ensures State() == if ok then Entered(old(State()), captureId, bytes, Handoff) else old(State())
    {
      hide CandidateTotal, Sum;
      if captureId in candidates || |candidates| >= MAX_QUEUED_CANDIDATES || Full(bytes) {
        return false;
      }
      EnteredBalances(State(), captureId, bytes, Handoff);
      candidateBytes := candidateBytes + bytes;
      candidates := candidates[captureId := CandidateEntry(bytes, Handoff)];
      return true;
    }

    method ClaimCandidate(captureId: Id, bytes: nat) returns (ok: bool)
      requires Balanced(State())
      modifies this`candidates, this`candidateBytes
      ensures Balanced(State())
      ensures ok <==> Claimable(old(State()), captureId, bytes)
      ensures State() == if ok then Claimed(old(State()), captureId, bytes) else old(State())
    {
      hide CandidateTotal, Sum;
      if captureId in candidates {
        var entry := candidates[captureId];
        if entry.bytes != bytes || entry.state != Handoff {
          return false;
        }
        ClaimedBalances(State(), captureId, bytes);
        candidates := candidates[captureId := entry.(state := Retained)];
        return true;
      }
      if |candidates| >= MAX_QUEUED_CANDIDATES || Full(bytes) {
        return false;
      }
      ClaimedBalances(State(), captureId, bytes);
      candidateBytes := candidateBytes + bytes;
      candidates := candidates[captureId := CandidateEntry(bytes, Retained)];
      return true;
    }

    predicate CandidateIsRetained(captureId: Id)
      reads this
    {
      IsRetained(State(), captureId)
    }

    method ReleaseCandidate(captureId: Id)
      requires Balanced(State())
      modifies this`candidates, this`candidateBytes
      ensures Balanced(State()) && State() == Returned(old(State()), captureId)
      ensures candidates == Removed(old(candidates), captureId)
    {
      hide CandidateTotal, Sum, Removed;
      ReturnedBalances(State(), captureId);
      if captureId in candidates {
        var entry := candidates[captureId];
        candidates := Removed(candidates, captureId);
        candidateBytes := SatSub(candidateBytes, entry.bytes);
      }
    }
  }

  class LogicalByteReservation {
    var bytes: nat
    const resources: ProcessResources

    constructor (resources: ProcessResources)
      requires resources.CaptureBalanced() && forall x :: x in resources.reservations ==> allocated(x)
      modifies resources`reservations
      ensures bytes == 0 && this.resources == resources && resources.CaptureBalanced()
      ensures resources.reservations == old(resources.reservations)[this := 0]
    {
      bytes := 0;
      this.resources := resources;
      new;
      SumInsert(resources.reservations, this, 0);
      resources.reservations := resources.reservations[this := 0];
    }

    ghost predicate Live()
      reads this, resources
    {
      resources.CaptureBalanced() && this in resources.reservations && resources.reservations[this] == bytes
    }

    method Reserve(added: nat) returns (ok: bool)
      requires Live() && added <= U64_MAX
      modifies this, resources`captureBytes, resources`reservations
      ensures Live()
      ensures ok <==> old(resources.captureBytes) + added <= MAX_PROCESS_CAPTURE_BYTES
      ensures bytes == old(bytes) + if ok then added else 0
      ensures resources.reservations == old(resources.reservations)[this := bytes]
    {
      hide CandidateTotal, Sum, Removed;
      SumUpdate(resources.reservations, this, bytes + added);
      if resources.captureBytes + added > U64_MAX || resources.captureBytes + added > MAX_PROCESS_CAPTURE_BYTES {
        assert resources.reservations[this := bytes] == resources.reservations;
        return false;
      }
      resources.captureBytes := resources.captureBytes + added;
      bytes := bytes + added;
      resources.reservations := resources.reservations[this := bytes];
      return true;
    }

    method Release(asked: nat)
      requires Live()
      modifies this, resources`captureBytes, resources`reservations
      ensures Live() && bytes == old(bytes) - Min(asked, old(bytes))
      ensures resources.captureBytes == old(resources.captureBytes) - Min(asked, old(bytes))
      ensures resources.reservations == old(resources.reservations)[this := bytes]
    {
      hide CandidateTotal, Sum, Removed;
      var released := Min(asked, bytes);
      SumUpdate(resources.reservations, this, bytes - released);
      SumRemoved(resources.reservations, this);
      bytes := bytes - released;
      resources.captureBytes := SatSub(resources.captureBytes, released);
      resources.reservations := resources.reservations[this := bytes];
    }

    /** The end of the reservation's life returns all it still holds. */
    method Drop()
      requires Live()
      modifies resources`captureBytes, resources`reservations
      ensures resources.CaptureBalanced() && resources.reservations == Removed(old(resources.reservations), this)
      ensures resources.captureBytes == old(resources.captureBytes) - bytes
    {
      hide CandidateTotal, Sum, Removed;
      SumRemoved(resources.reservations, this);
      resources.captureBytes := SatSub(resources.captureBytes, bytes);
      resources.reservations := Removed(resources.reservations, this);
    }
  }

  /** Keeps the one failed candidate of one operation until it is taken for delivery. */
}
