// The process ledger's entries for failed candidates, and their limits.

module CandidateEntries {
  import opened MapSums

  const MAX_GLOBAL_BYTES: nat := 1_048_576
  const MAX_QUEUED_CANDIDATES: nat := 16

  /** Operation and capture identifiers. */
  type Id = int

  /** Handed off by a failing operation, or taken over by a sink. */
  datatype CandidateState = Handoff | Retained

  datatype CandidateEntry = CandidateEntry(bytes: nat, state: CandidateState)

  function CandidateBytes(candidates: map<Id, CandidateEntry>): map<Id, nat> {
    map id | id in candidates :: candidates[id].bytes
  }

  ghost function CandidateTotal(candidates: map<Id, CandidateEntry>): nat {
    Sum(CandidateBytes(candidates))
  }

  lemma CandidateTotalPut(candidates: map<Id, CandidateEntry>, id: Id, e: CandidateEntry)
    ensures CandidateTotal(candidates[id := e]) ==
            CandidateTotal(candidates) - (if id in candidates then candidates[id].bytes else 0) + e.bytes
  {
    assert CandidateBytes(candidates[id := e]) == CandidateBytes(candidates)[id := e.bytes];
    if id in candidates {
      SumUpdate(CandidateBytes(candidates), id, e.bytes);
    } else {
      SumInsert(CandidateBytes(candidates), id, e.bytes);
    }
  }

  lemma CandidateTotalRemove(candidates: map<Id, CandidateEntry>, id: Id)
    requires id in candidates
    ensures CandidateTotal(Removed(candidates, id)) == CandidateTotal(candidates) - candidates[id].bytes
  {
    assert CandidateBytes(Removed(candidates, id)) == Removed(CandidateBytes(candidates), id);
    SumRemoved(CandidateBytes(candidates), id);
  }
}
