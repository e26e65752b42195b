// The sections that concern the operation tables keep every table matched with the ledger.

module CaptureTable {
  import opened Arith
  import opened CandidateEntries
  import opened CaptureRuns
  import opened Ledger
  import opened MapSums
  import opened Options
  import opened Records
  import opened Sections
  import opened StormGate

  // ---- what a section does to one table and to the ledger --------------------------------------------

  /** Before the section, table and ledger agree about this operation. */
  predicate Agrees(d: SdkState, b: Books, id: Id) {
    id in d.operations ==> id in b.active && b.active[id] == d.operations[id].bytes
  }

  predicate Puts(d0: SdkState, b0: Books, id: Id, d: SdkState, b: Books) {
    && id in d.operations && d.operations == d0.operations[id := d.operations[id]]
    && (id in d0.operations || id !in b0.active)
    && b.active == b0.active[id := d.operations[id].bytes]
    && var before := if id in d0.operations then d0.operations[id].bytes else 0;
    && b.activeBytes + before == b0.activeBytes + d.operations[id].bytes
    && d.globalBytes + before == d0.globalBytes + d.operations[id].bytes
  }

  predicate Removes(d0: SdkState, b0: Books, id: Id, d: SdkState, b: Books) {
    && id in d0.operations && d.operations == Removed(d0.operations, id) && b.active == Removed(b0.active, id)
    && b.activeBytes + d0.operations[id].bytes == b0.activeBytes
    && d.globalBytes + d0.operations[id].bytes == d0.globalBytes
  }

  predicate Leaves(d0: SdkState, b0: Books, d: SdkState, b: Books) {
    d.operations == d0.operations && d.globalBytes == d0.globalBytes && b == b0
  }

  ghost predicate TableChange(d0: SdkState, b0: Books, id: Id, d: SdkState, b: Books) {
    && d.sink == d0.sink && !Carries(d.phase) && !Carries(d0.phase) && LocalOk(d) && Balanced(b)
    && b.candidates == b0.candidates && b.candidateBytes == b0.candidateBytes
    && (Puts(d0, b0, id, d, b) || Removes(d0, b0, id, d, b) || Leaves(d0, b0, d, b))
  }

  /** A numbered failure keeps its count through an append to its operation, and gives it up with the operation. */
  lemma NumbersFollow(d: SdkState, id: Id, o: ActiveOperation)
    requires NumberedOk(d)
    ensures NumberedOk(d.(operations := Removed(d.operations, id), numbered := Restarted(d.numbered, id)))
    ensures id in d.operations && |o.records| == |d.operations[id].records| + 1 ==>
              NumberedOk(d.(operations := d.operations[id := o], numbered := Appended(d.numbered, id)))
    ensures id !in d.operations || |o.records| == |d.operations[id].records| ==>
              NumberedOk(d.(operations := d.operations[id := o]))
  {
  }

  lemma NumbersStay(d: SdkState, d': SdkState)
    requires NumberedOk(d) && d'.operations == d.operations && d'.numbered == d.numbered
    ensures NumberedOk(d')
  {
  }

  lemma DeleteChange(d: SdkState, b: Books, id: Id)
    requires LocalOk(d) && Balanced(b) && Agrees(d, b, id) && id in d.operations
    ensures var d' := WithoutOperation(d, id); var b' := Released(b, id);
            && Balanced(b') && b'.candidates == b.candidates && b'.candidateBytes == b.candidateBytes
            && Removes(d, b, id, d', b')
            && d'.globalBytes == OperationTotal(d'.operations) && AllWellFormed(d'.operations) && NumberedOk(d')
  {
    ReleasedBalances(b, id);
    OperationTotalRemove(d.operations, id);
    AllWellFormedAfter(d.operations, id, d.operations[id]);
    NumbersFollow(d, id, d.operations[id]);
    NumbersStay(d.(operations := Removed(d.operations, id), numbered := Restarted(d.numbered, id)),
                WithoutOperation(d, id));
  }

  lemma PutChange(d: SdkState, b: Books, id: Id, o: ActiveOperation)
    requires LocalOk(d) && Balanced(b) && WellFormed(o)
    ensures var d' := d.operations[id := o];
            && AllWellFormed(d')
            && OperationTotal(d')
                 == d.globalBytes - (if id in d.operations then d.operations[id].bytes else 0) + o.bytes
  {
    OperationTotalPut(d.operations, id, o);
    AllWellFormedAfter(d.operations, id, o);
  }

  lemma BegunOk(d: SdkState, id: Id, o: ActiveOperation)
    requires LocalOk(d) && d.phase.Free? && id !in d.operations && WellFormed(o)
    ensures LocalOk(d.(operations := d.operations[id := o], globalBytes := d.globalBytes + o.bytes))
  {
    hide OperationTotal, WellFormed, AllWellFormed;
    OperationTotalPut(d.operations, id, o);
    AllWellFormedAfter(d.operations, id, o);
  }

  lemma BeginPut(d: SdkState, b: Books, id: Id, record: EventRecord, captureId: Id, world: bool)
    requires LocalOk(d) && d.phase.Free? && Balanced(b) && Agrees(d, b, id) && id !in d.operations
    requires record.sequence == 0 && |record.payload| <= MAX_EVENT_BYTES && MayReserve(b, id, RecordSize(record))
    ensures var o := ActiveOperation(RecordSize(record), [record], captureId, world);
            TableChange(d, b, id, d.(operations := d.operations[id := o], globalBytes := d.globalBytes + o.bytes),
                        Reserved(b, id, o.bytes))
  {
    hide LocalOk, Balanced, WellFormed, RecordSize;
    var o := ActiveOperation(RecordSize(record), [record], captureId, world);
    FirstRecord(record, captureId, world);
    BegunOk(d, id, o);
    ReservedBalances(b, id, o.bytes);
  }

  lemma BeginChange(d: SdkState, b: Books, id: Id, captureId: Id, payload: Option<seq<bv8>>, world: bool)
    requires LocalOk(d) && d.phase.Free? && Balanced(b) && Agrees(d, b, id)
    ensures var r := BeginSection(d, b, id, captureId, payload, world); TableChange(d, b, id, r.sdk, r.books)
  {
    hide LocalOk, Balanced, Puts, Removes, RecordSize;
    if BeginSection(d, b, id, captureId, payload, world).result.Ok? {
      BeginPut(d, b, id, MakeRecord(EventKind.Begin, 0, payload).value, captureId, world);
    }
  }

  lemma BindChange(d: SdkState, b: Books, id: Id)
    requires LocalOk(d) && d.phase.Free? && Balanced(b) && Agrees(d, b, id)
    ensures TableChange(d, b, id, BindSection(d, id).1, b)
  {
    hide OperationTotal, Sum, CandidateTotal, AllWellFormed;
    if BindSection(d, id).0.Ok? {
      AllWellFormedAfter(d.operations, id, d.operations[id]);
      var o := d.operations[id].(worldBound := true);
      PutChange(d, b, id, o);
      NumbersFollow(d, id, o);
      assert b.active[id := o.bytes] == b.active;
    }
  }

  lemma AppendChange(d: SdkState, b: Books, id: Id, kind: EventKind, payload: Option<seq<bv8>>)
    requires LocalOk(d) && d.phase.Free? && Balanced(b) && Agrees(d, b, id)
    ensures var r := AppendSection(d, b, id, kind, payload); TableChange(d, b, id, r.sdk, r.books)
  {
    hide OperationTotal, Sum, CandidateTotal, WellFormed, AllWellFormed, Released, WithoutOperation;
    var r := AppendSection(d, b, id, kind, payload);
    if id in d.operations && MakeRecord(kind, |d.operations[id].records|, payload).Ok? {
      var o := d.operations[id];
      var record := MakeRecord(kind, |o.records|, payload).value;
      if !WithinOperationBounds(o, RecordSize(record)) {
        DeleteChange(d, b, id);
        DeleteKeepsRest(d, id);
      } else if MayGrow(b, id, RecordSize(record)) {
        AppendPut(d, b, id, record);
      }
    }
    hide LocalOk, Balanced, Agrees, RecordSize, Grown, Appended;
  }

  lemma DeleteKeepsRest(d: SdkState, id: Id)
    requires id in d.operations
    ensures var d' := WithoutOperation(d, id); d'.sink == d.sink && d'.phase == d.phase
  {
  }

  lemma AppendPut(d: SdkState, b: Books, id: Id, record: EventRecord)
    requires LocalOk(d) && d.phase.Free? && Balanced(b) && Agrees(d, b, id) && id in d.operations
    requires record.sequence == |d.operations[id].records|
             && WithinOperationBounds(d.operations[id], RecordSize(record))
    requires MayGrow(b, id, RecordSize(record))
    ensures var o := d.operations[id]; var added := RecordSize(record);
            var longer := o.(bytes := o.bytes + added, records := o.records + [record]);
            TableChange(d, b, id, d.(operations := d.operations[id := longer], globalBytes := d.globalBytes + added,
                                     numbered := Appended(d.numbered, id)), Grown(b, id, added))
  {
    hide OperationTotal, Sum, CandidateTotal, WellFormed, AllWellFormed;
    var o, added := d.operations[id], RecordSize(record);
    var longer := o.(bytes := o.bytes + added, records := o.records + [record]);
    AllWellFormedAfter(d.operations, id, o);
    NextRecord(o, record);
    PutChange(d, b, id, longer);
    NumbersFollow(d, id, longer);
    NumbersStay(d.(operations := d.operations[id := longer], numbered := Appended(d.numbered, id)),
                d.(operations := d.operations[id := longer], globalBytes := d.globalBytes + added,
                   numbered := Appended(d.numbered, id)));
    GrownBalances(b, id, added);
  }

  // ---- from one table to all -------------------------------------------------------------------------

  lemma Facts(s: State, k: Id, id: Id)
    requires Inv(s) && k in s.sdks
    ensures Balanced(s.books) && LocalOk(s.sdks[k]) && Agrees(s.sdks[k], s.books, id)
    ensures OperationOk(s, id) && SdkOk(s, k)
  {
    assert OperationOk(s, id) && SdkOk(s, k);
    if id in s.sdks[k].operations {
      assert OperationOk(s, id);
    }
  }

  lemma OperationStays(s: State, k: Id, id: Id, d: SdkState, b: Books, x: Id)
    requires k in s.sdks && OperationOk(s, x) && OperationOk(s, id) && SdkOk(s, k)
             && TableChange(s.sdks[k], s.books, id, d, b)
    ensures OperationOk(InTable(s, k, id, d, b), x)
  {
    hide LocalOk, Balanced;
    if x in s.owner && s.owner[x] != k {
      assert x !in s.sdks[k].operations;
    }
  }

  lemma SdkStays(s: State, k: Id, id: Id, d: SdkState, b: Books, x: Id)
    requires k in s.sdks && SdkOk(s, x) && OperationOk(s, id) && SdkOk(s, k)
             && TableChange(s.sdks[k], s.books, id, d, b)
    ensures SdkOk(InTable(s, k, id, d, b), x)
  {
    hide LocalOk, Balanced;
    if x in s.sdks && x != k && id in s.sdks[x].operations {
      assert s.owner[id] == x;
    }
  }

  lemma CaptureStays(s: State, k: Id, id: Id, d: SdkState, b: Books, cap: Id)
    requires k in s.sdks && CaptureOk(s, cap) && TableChange(s.sdks[k], s.books, id, d, b)
    ensures CaptureOk(InTable(s, k, id, d, b), cap)
  {
    hide LocalOk, Balanced, Puts, Removes;
    var s' := InTable(s, k, id, d, b);
    assert b.candidates == s.books.candidates;
    if cap in s.carrier && s.carrier[cap] in s.sdks && s.carrier[cap] != k && About(s.sdks[s.carrier[cap]].phase, cap) {
      assert s'.sdks[s.carrier[cap]] == s.sdks[s.carrier[cap]];
    }
  }

  lemma BytesFollow(s: State, k: Id, id: Id, d: SdkState, b: Books)
    requires k in s.sdks && TableChange(s.sdks[k], s.books, id, d, b) && s.books.activeBytes == Sum(GlobalBytes(s.sdks))
    ensures b.activeBytes == Sum(GlobalBytes(s.sdks[k := d]))
  {
    hide LocalOk, Balanced, Sum;
    SumUpdate(GlobalBytes(s.sdks), k, d.globalBytes);
    SumRemove(GlobalBytes(s.sdks), k);
    assert GlobalBytes(s.sdks[k := d]) == GlobalBytes(s.sdks)[k := d.globalBytes];
  }

  /** A section that changes one table as the ledger says keeps the invariant of the whole process. */
  lemma TableKeeps(s: State, k: Id, id: Id, d: SdkState, b: Books)
    requires Inv(s) && k in s.sdks && TableChange(s.sdks[k], s.books, id, d, b)
    ensures Inv(InTable(s, k, id, d, b))
  {
    var s' := InTable(s, k, id, d, b);
    Facts(s, k, id);
    hide TableChange, LocalOk, Balanced, OperationOk, SdkOk, CaptureOk, RateLaw, Spaced, TimesOrdered, Sum;
    assert Balanced(b) by { ChangeBalances(s.sdks[k], s.books, id, d, b); }
    BytesFollow(s, k, id, d, b);
    forall x ensures OperationOk(s', x) { OperationStays(s, k, id, d, b, x); }
    forall x ensures SdkOk(s', x) { SdkStays(s, k, id, d, b, x); }
    forall cap ensures CaptureOk(s', cap) { CaptureStays(s, k, id, d, b, cap); }
    forall r ensures RecorderOk(s', r) {
      assert RecorderOk(s, r);
      RecorderStays(s, k, id, d, b, r);
    }
  }

  lemma ChangeBalances(d0: SdkState, b0: Books, id: Id, d: SdkState, b: Books)
    requires TableChange(d0, b0, id, d, b)
    ensures Balanced(b) && b.candidates == b0.candidates
  {
  }

  lemma RecorderStays(s: State, k: Id, id: Id, d: SdkState, b: Books, r: Id)
    requires k in s.sdks && RecorderOk(s, r)
    ensures RecorderOk(InTable(s, k, id, d, b), r)
  {
  }
}
