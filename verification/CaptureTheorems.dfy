// What holds in every reachable state of the process, and what each decisive section of a failing
// operation means in the state in which it happens.

module CaptureTheorems {
  import opened Arith
  import opened CandidateEntries
  import opened CaptureCustody
  import opened CaptureLaws
  import opened CaptureRuns
  import opened Ledger
  import opened MapSums
  import opened Options
  import opened Records
  import opened Sections
  import opened StormGate

  // ---- one ledger for all ------------------------------------------------------------------------------

  /** Every stored operation is in the ledger with the sum of its record sizes, and in one table only. */
  lemma TablesMatchLedger(s: State, k: Id, id: Id)
    requires Reachable(s) && k in s.sdks && id in s.sdks[k].operations
    ensures id in s.books.active
            && s.books.active[id] == s.sdks[k].operations[id].bytes == SizeOf(s.sdks[k].operations[id].records)
    ensures Contiguous(s.sdks[k].operations[id].records)
    ensures forall k' :: k' in s.sdks && id in s.sdks[k'].operations ==> k' == k
  {
    ReachableInv(s);
    assert SdkOk(s, k) && OperationOk(s, id);
    forall k' | k' in s.sdks && id in s.sdks[k'].operations ensures k' == k {
      assert SdkOk(s, k');
    }
  }

  /** Every operation entry of the ledger is stored by some Sdk. */
  lemma LedgerMatchesTables(s: State, id: Id)
    requires Reachable(s) && id in s.books.active
    ensures exists k :: k in s.sdks && id in s.sdks[k].operations
  {
    ReachableInv(s);
    assert OperationOk(s, id);
    var k := s.owner[id];
    assert k in s.sdks && id in s.sdks[k].operations;
  }

  /** The totals of all Sdks add up to the ledger's, and everything stays within the limits of the process. */
  lemma TotalsAddUp(s: State)
    requires Reachable(s)
    ensures Balanced(s.books) && s.books.activeBytes == Sum(GlobalBytes(s.sdks))
    ensures forall k :: k in s.sdks ==> s.sdks[k].globalBytes == OperationTotal(s.sdks[k].operations)
  {
    ReachableInv(s);
    hide Balanced, Sum, OperationTotal;
    forall k | k in s.sdks ensures s.sdks[k].globalBytes == OperationTotal(s.sdks[k].operations) {
      assert SdkOk(s, k);
    }
  }

  /** A recorder's candidate is in the ledger, retained, with exactly its bytes; no two recorders keep one capture. */
  lemma RecordersMatchLedger(s: State, r: Id)
    requires Reachable(s) && r in s.recorders && s.recorders[r].candidate.Some?
    ensures var c := s.recorders[r].candidate.value;
            && HasEntry(s, c.captureId, CandidateEntry(Length(c), Retained))
            && forall r' :: r' in s.recorders && Keeps(s.recorders[r'], c.captureId) ==> r' == r
  {
    ReachableInv(s);
    var cap := s.recorders[r].candidate.value.captureId;
    assert RecorderOk(s, r) && CaptureOk(s, cap);
    forall r' | r' in s.recorders && Keeps(s.recorders[r'], cap) ensures r' == r {
      NobodyKeeps(s, cap, r');
    }
  }

  /** A handed-off entry belongs to exactly one failing operation, which has not yet settled it. */
  lemma HandoffsAreInFlight(s: State, cap: Id)
    requires Reachable(s) && cap in s.books.candidates && s.books.candidates[cap].state == Handoff
    ensures exists k ::
              k in s.sdks && About(s.sdks[k].phase, cap)
              && Length(s.sdks[k].phase.candidate) == s.books.candidates[cap].bytes
    ensures forall k, k' ::
              k in s.sdks && k' in s.sdks && About(s.sdks[k].phase, cap) && About(s.sdks[k'].phase, cap) ==> k == k'
  {
    ReachableInv(s);
    assert CaptureOk(s, cap);
    var k0 := s.place[cap].sdk;
    Facts(s, k0);
    forall k, k' | k in s.sdks && k' in s.sdks && About(s.sdks[k].phase, cap) && About(s.sdks[k'].phase, cap)
      ensures k == k'
    {
      assert SdkOk(s, k) && SdkOk(s, k');
    }
  }

  /** When no call is under way and nobody keeps a candidate, no candidate bytes are left. */
  lemma NothingLeaks(s: State)
    requires Reachable(s)
    requires forall k :: k in s.sdks ==> !Carries(s.sdks[k].phase)
    requires forall r :: r in s.recorders ==> s.recorders[r].candidate.None?
    requires forall cap :: cap in s.place ==> !s.place[cap].Leaving? && !s.place[cap].Elsewhere?
    ensures s.books.candidates == map[] && s.books.candidateBytes == 0
    ensures s.sdks == map[] ==> s.books.active == map[] && s.books.activeBytes == 0
  {
    ReachableInv(s);
    forall cap ensures cap !in s.books.candidates {
      assert CaptureOk(s, cap);
    }
    assert CandidateBytes(s.books.candidates) == map[];
    if s.sdks == map[] {
      forall id ensures id !in s.books.active {
        assert OperationOk(s, id);
      }
    }
  }

  // ---- when a call is accepted -----------------------------------------------------------------------------

  predicate StoresOperation(s: State, k: Id, id: Id) {
    k in s.sdks && id in s.sdks[k].operations
  }

  lemma NobodyStores(s: State, id: Id)
    requires Inv(s)
    ensures id in s.books.active ==> exists k :: StoresOperation(s, k, id)
    ensures forall k :: StoresOperation(s, k, id) ==> id in s.books.active
  {
    assert OperationOk(s, id);
    if id in s.books.active {
      assert StoresOperation(s, s.owner[id], id);
    }
    forall k | StoresOperation(s, k, id) ensures id in s.books.active {
      assert SdkOk(s, k);
    }
  }

  /**
   * A begin is accepted iff its payload fits a record, no Sdk stores the operation, fewer than 512 are stored
   * and its bytes fit beside all others of the process. A refused one changes nothing.
   */
  lemma BeginVerdict(s: State, k: Id, id: Id, captureId: Id, payload: Option<seq<bv8>>, world: bool)
    requires Reachable(s) && Enabled(s, BeginStep(k, id, captureId, payload, world))
    ensures var d, d' := s.sdks[k], Apply(s, BeginStep(k, id, captureId, payload, world)).sdks[k];
            && (d' != d <==>
                  && Recordable(payload) && (forall j :: !StoresOperation(s, j, id))
                  && |s.books.active| < MAX_ACTIVE_OPERATIONS
                  && s.books.activeBytes + s.books.candidateBytes + StoredSize(payload) <= MAX_GLOBAL_BYTES)
            && (d' != d ==> id in d'.operations && d'.operations[id].worldBound == world
                            && d'.operations == d.operations[id := d'.operations[id]])
  {
    ReachableInv(s);
    NobodyStores(s, id);
    hide Inv, OwnerAfter;
    var d, d' := s.sdks[k], Apply(s, BeginStep(k, id, captureId, payload, world)).sdks[k];
    assert StoresOperation(s, k, id) <==> id in d.operations;
    assert id in d'.operations && id !in d.operations ==> d'.operations != d.operations;
    if id !in d.operations {
      BeginIs(d, s.books, id, captureId, payload, world);
    }
  }

  lemma BeginIs(d: SdkState, b: Books, id: Id, captureId: Id, payload: Option<seq<bv8>>, world: bool)
    requires id !in d.operations
    ensures var d' := BeginSection(d, b, id, captureId, payload, world).sdk;
            && (id in d'.operations <==> Recordable(payload) && MayReserve(b, id, StoredSize(payload)))
            && (id !in d'.operations ==> d' == d)
  {
  }

  /**
   * An append is accepted iff its payload fits a record, the operation has room for it and so has the process.
   * Without room in the operation it ends it; without room in the process it is about to.
   */
  lemma AppendVerdict(s: State, k: Id, id: Id, kind: EventKind, payload: Option<seq<bv8>>)
    requires Reachable(s) && Enabled(s, Append(k, id, kind, payload)) && id in s.sdks[k].operations
    ensures var d, d' := s.sdks[k], Apply(s, Append(k, id, kind, payload)).sdks[k];
            var o, size := d.operations[id], StoredSize(payload);
            var room := |o.records| < MAX_EVENTS && o.bytes + size <= MAX_OPERATION_BYTES;
            if !Recordable(payload) then d' == d
            else if !room then d'.operations == Removed(d.operations, id)
            else if s.books.activeBytes + s.books.candidateBytes + size > MAX_GLOBAL_BYTES then
                  d' == d.(phase := Dropping(id))
            else id in d'.operations && |d'.operations[id].records| == |o.records| + 1
                 && d'.operations == d.operations[id := d'.operations[id]]
  {
    ReachableInv(s);
    assert SdkOk(s, k) && OperationOk(s, id);
    AppendIs(s, k, id, kind, payload);
    AppendSectionIs(s.sdks[k], s.books, id, kind, payload);
    hide Inv, Apply, AppendSection, SdkOk;
  }

  lemma AppendIs(s: State, k: Id, id: Id, kind: EventKind, payload: Option<seq<bv8>>)
    requires Enabled(s, Append(k, id, kind, payload))
    ensures s.sdks[k].phase.Free?
    ensures Apply(s, Append(k, id, kind, payload)).sdks[k] == AppendSection(s.sdks[k], s.books, id, kind, payload).sdk
  {
    hide AppendSection, OwnerAfter;
  }

  lemma AppendSectionIs(d: SdkState, b: Books, id: Id, kind: EventKind, payload: Option<seq<bv8>>)
    requires id in d.operations && id in b.active && d.operations[id].bytes <= MAX_OPERATION_BYTES
    ensures var d' := AppendSection(d, b, id, kind, payload).sdk;
            var o, size := d.operations[id], StoredSize(payload);
            if !Recordable(payload) then d' == d
            else if !(|o.records| < MAX_EVENTS && o.bytes + size <= MAX_OPERATION_BYTES) then
              d'.operations == Removed(d.operations, id)
            else if !Fits(b, size) then d' == d.(phase := Dropping(id))
            else id in d'.operations && |d'.operations[id].records| == |o.records| + 1
                 && d'.operations == d.operations[id := d'.operations[id]]
  {
    hide Appended, Restarted, Released;
  }

  /** A failure is numbered iff its operation is stored and has its world, and its payload fits a record. */
  lemma NumberVerdict(s: State, k: Id, call: Call, id: Id, payload: Option<seq<bv8>>)
    requires Enabled(s, Number(k, call, id, payload))
    ensures var d, d' := s.sdks[k], Apply(s, Number(k, call, id, payload)).sdks[k];
            && (call in d'.numbered <==> id in d.operations && d.operations[id].worldBound && Recordable(payload))
            && d' == d.(numbered := d'.numbered)
  {
  }

  /** A failing operation ends in any case; it is sealed iff both closing records fit it and the candidate is valid. */
  lemma RemoveVerdict(s: State, k: Id, call: Call, e: Encoding)
    requires Reachable(s) && Enabled(s, Remove(k, call, e))
    ensures var d, d' := s.sdks[k], Apply(s, Remove(k, call, e)).sdks[k];
            var id, size := d.numbered[call].operationId, RecordSize(d.numbered[call].record);
            && id !in d'.operations
            && (d'.phase.Sealed? <==>
                  && id in d.operations && |d.operations[id].records| < MAX_EVENTS && Recordable(e.terminal)
                  && d.operations[id].bytes + size + StoredSize(e.terminal) <= MAX_OPERATION_BYTES
                  && e.valid && e.storm.Some?)
            && (!d'.phase.Sealed? ==> d'.phase.Free? && call in d'.outcomes && d'.outcomes[call] == Rejected)
  {
    ReachableInv(s);
    assert SdkOk(s, k);
    var d := s.sdks[k];
    RemoveIs(s, k, call, e);
    if d.numbered[call].operationId in d.operations {
      SealVerdict(d.operations[d.numbered[call].operationId], d.numbered[call].record, e.terminal);
    }
    hide Inv, Apply, Seal, WellFormed, Restarted, Released;
  }

  lemma RemoveIs(s: State, k: Id, call: Call, e: Encoding)
    requires Enabled(s, Remove(k, call, e))
    ensures s.sdks[k].phase.Free?
            && Apply(s, Remove(k, call, e)).sdks[k] == RemoveSection(s.sdks[k], s.books, call, e).sdk
  {
    hide RemoveSection, OwnerAfter;
  }

  lemma SealVerdict(o: ActiveOperation, failure: EventRecord, terminal: Option<seq<bv8>>)
    requires WellFormed(o)
    ensures Seal(o, failure, terminal).Ok? <==>
            && |o.records| < MAX_EVENTS && Recordable(terminal)
            && o.bytes + RecordSize(failure) + StoredSize(terminal) <= MAX_OPERATION_BYTES
  {
    hide Contiguous, SizeOf;
  }

  // ---- a failing operation, section by section -----------------------------------------------------------

  /** The storm gate lets at most 4 plus one per 500 ms through in any window, and one identity once a minute. */
  lemma AdmissionsAreRare(s: State)
    requires Reachable(s)
    ensures RateLaw(s.admissions) && Spaced(s.admissions)
  {
    ReachableInv(s);
  }

  /**
   * The sealed records are numbered without gaps if and only if no record was appended between the
   * section that numbered the failure and the one that took the operation out.
   */
  lemma SealedIffUndisturbed(s: State, k: Id, call: Call, e: Encoding)
    requires Reachable(s) && Enabled(s, Remove(k, call, e)) && !s.sdks[k].numbered[call].restarted
    ensures s.sdks[k].numbered[call].operationId in s.sdks[k].operations
    ensures var phase := Apply(s, Remove(k, call, e)).sdks[k].phase;
            phase.Sealed? ==> (Contiguous(phase.candidate.records) <==> s.sdks[k].numbered[call].appends == 0)
  {
    ReachableInv(s);
    Facts(s, k);
    var n := s.sdks[k].numbered[call];
    var o := s.sdks[k].operations[n.operationId];
    hide Inv, Balanced, OperationTotal, Seal, Contiguous;
    assert WellFormed(o);
    if Seal(o, n.record, e.terminal).Ok? {
      SealedContiguousIff(o, n.record, e.terminal);
    }
  }

  /** What the reservation refuses: too long, another sink's capture, sixteen held, or no bytes left at this moment. */
  lemma HandOffVerdict(s: State, k: Id)
    requires Reachable(s) && Enabled(s, HandOff(k))
    ensures var c := s.sdks[k].phase.candidate; var d' := Apply(s, HandOff(k)).sdks[k];
            && (d'.phase.Free? <==>
                  || Length(c) > MAX_OPERATION_BYTES || InPlace(s, c.captureId, Elsewhere)
                  || |s.books.candidates| == MAX_QUEUED_CANDIDATES
                  || s.books.activeBytes + s.books.candidateBytes + Length(c) > MAX_GLOBAL_BYTES)
            && (d'.phase.Free? ==> d'.outcomes[s.sdks[k].phase.call] == QueueFull
                                   && Apply(s, HandOff(k)).books == s.books)
  {
    ReachableInv(s);
    Facts(s, k);
  }

  /** `claim_candidate` never refuses a handoff, whatever happened since it was made. */
  lemma ClaimNeverRefused(s: State, k: Id)
    requires Reachable(s) && Enabled(s, Claim(k))
    ensures Apply(s, Claim(k)).sdks[k].phase.InSink?
    ensures Apply(s, Claim(k)).books.candidateBytes == s.books.candidateBytes
  {
    ReachableInv(s);
    Facts(s, k);
  }

  /** A sent candidate is found retained iff its capture still has an entry: it was not yet taken out and returned. */
  lemma CheckVerdict(s: State, k: Id)
    requires Reachable(s) && Enabled(s, Check(k)) && !s.sdks[k].sink.PlainSink?
    ensures var p := s.sdks[k].phase; var p' := Apply(s, Check(k)).sdks[k].phase;
            && (p.sent ==> (p'.retained <==> p.candidate.captureId in s.books.candidates))
            && (!p.sent ==> (p'.retained <==> InPlace(s, p.candidate.captureId, Elsewhere)))
  {
    ReachableInv(s);
    Facts(s, k);
  }

  /**
   * How a call ends. It is delivered iff the sink took the candidate and, for a sink that retains, it was
   * found retained. If it is refused, no recorder and no failing operation has the candidate any more.
   */
  lemma SettleVerdict(s: State, k: Id)
    requires Reachable(s) && Enabled(s, Settle(k))
    ensures var p := s.sdks[k].phase; var s' := Apply(s, Settle(k)); var cap := p.candidate.captureId;
            && s'.sdks[k].phase.Free? && p.call in s'.sdks[k].outcomes
            && s'.sdks[k].outcomes[p.call] == (if p.sent && (s.sdks[k].sink.PlainSink? || p.retained) then Delivered
                                               else Refused)
            && (s'.sdks[k].outcomes[p.call].Refused? ==> IsAway(s', cap))
            && (cap in s'.place ==> !s'.place[cap].Flight?)
  {
    ReachableInv(s);
    Facts(s, k);
    hide Inv, Balanced, LocalOk;
  }

  /**
   * What a settling call releases: its own unclaimed handoff, or nothing, or another sink's entry. The last
   * iff, since the candidate was found gone, another sink has claimed the same capture.
   */
  lemma SettleReleases(s: State, k: Id)
    requires Reachable(s) && Enabled(s, Settle(k)) && !s.sdks[k].phase.retained
    ensures var cap := s.sdks[k].phase.candidate.captureId; var s' := Apply(s, Settle(k));
            && cap !in s'.books.candidates
            && (cap in s.books.candidates ==>
                  (s.books.candidates[cap].state == Handoff <==> InPlace(s, cap, Flight(k)))
                  && (s.books.candidates[cap].state == Retained <==> InPlace(s, cap, Elsewhere)))
            && (s.sdks[k].phase.sent && !s.sdks[k].sink.PlainSink? ==> !InPlace(s, cap, Flight(k)))
  {
    ReachableInv(s);
    Facts(s, k);
    ReturnedKeepsRest(s.books, s.sdks[k].phase.candidate.captureId);
    hide Inv, Balanced, LocalOk, Returned;
  }
}
