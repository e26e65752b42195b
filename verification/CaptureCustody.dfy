// The sections that concern a candidate keep every entry of the ledger in exactly one custody.

module CaptureCustody {
  import opened Arith
  import opened CandidateEntries
  import opened CaptureRuns
  import opened Ledger
  import opened MapSums
  import opened Options
  import opened Records
  import opened Sections
  import opened StormGate

  // ---- one capture at a time -------------------------------------------------------------------------

  predicate SameEntry(s: State, s': State, x: Id) {
    && (x in s.place <==> x in s'.place) && (x in s.place ==> s'.place[x] == s.place[x])
    && (x in s.books.candidates <==> x in s'.books.candidates)
    && (x in s.books.candidates ==> s'.books.candidates[x] == s.books.candidates[x])
    && (x in s.carrier <==> x in s'.carrier) && (x in s.carrier ==> s'.carrier[x] == s.carrier[x])
  }

  ghost predicate OtherEntriesSame(s: State, s': State, cap: Id) {
    forall x :: x != cap ==> SameEntry(s, s', x)
  }

  /** The two states of an Sdk differ at most in how far a call about this capture has come. */
  predicate SameTable(d: SdkState, d': SdkState, cap: Id) {
    && d'.operations == d.operations && d'.globalBytes == d.globalBytes && d'.numbered == d.numbered
    && d'.sink == d.sink
    && (Carries(d.phase) ==> About(d.phase, cap)) && (Carries(d'.phase) ==> About(d'.phase, cap))
  }

  ghost predicate SdksOff(s: State, s': State, cap: Id) {
    && s'.sdks.Keys == s.sdks.Keys
    && forall k :: k in s.sdks ==> s'.sdks[k] == s.sdks[k] || SameTable(s.sdks[k], s'.sdks[k], cap)
  }

  predicate Keeps(r: RecorderState, cap: Id) {
    r.candidate.Some? && r.candidate.value.captureId == cap
  }

  predicate SameRecorder(r: RecorderState, r': RecorderState, cap: Id) {
    (r.candidate.Some? ==> Keeps(r, cap)) && (r'.candidate.Some? ==> Keeps(r', cap))
  }

  ghost predicate RecordersOff(s: State, s': State, cap: Id) {
    && s'.recorders.Keys == s.recorders.Keys
    && forall r :: r in s.recorders ==> s'.recorders[r] == s.recorders[r]
                                        || SameRecorder(s.recorders[r], s'.recorders[r], cap)
  }

  /** What has to be shown again after a step about one capture. */
  ghost predicate Touched(s: State, s': State, cap: Id) {
    && CaptureOk(s', cap)
    && (forall k :: k in s'.sdks && (k !in s.sdks || s'.sdks[k] != s.sdks[k]) ==> SdkOk(s', k))
    && (forall r ::
          r in s'.recorders
          && (r !in s.recorders || s'.recorders[r] != s.recorders[r] || Keeps(s'.recorders[r], cap)) ==>
            RecorderOk(s', r))
  }

  ghost predicate CandidateStep(s: State, s': State, cap: Id) {
    && s'.owner == s.owner && s'.books.active == s.books.active && s'.books.activeBytes == s.books.activeBytes
    && Balanced(s'.books) && GateOk(s')
    && (cap in s.carrier ==> cap in s'.carrier && s'.carrier[cap] == s.carrier[cap])
    && OtherEntriesSame(s, s', cap) && SdksOff(s, s', cap) && RecordersOff(s, s', cap)
  }

  lemma OtherCapture(s: State, s': State, cap: Id, x: Id)
    requires CaptureOk(s, x) && x != cap && SameEntry(s, s', x) && SdksOff(s, s', cap) && RecordersOff(s, s', cap)
    ensures CaptureOk(s', x)
  {
    if x in s.place && s.place[x].Flight? {
      var k := s.place[x].sdk;
      assert s'.sdks[k] == s.sdks[k] || SameTable(s.sdks[k], s'.sdks[k], cap);
    }
    if x in s.place && s.place[x].Kept? {
      var r := s.place[x].recorder;
      assert s'.recorders[r] == s.recorders[r] || SameRecorder(s.recorders[r], s'.recorders[r], cap);
    }
    if x in s.carrier && s.carrier[x] in s.sdks {
      var k := s.carrier[x];
      assert s'.sdks[k] == s.sdks[k] || SameTable(s.sdks[k], s'.sdks[k], cap);
    }
  }

  lemma OtherSdk(s: State, s': State, cap: Id, k: Id)
    requires SdkOk(s, k) && k in s.sdks && s'.sdks.Keys == s.sdks.Keys && s'.sdks[k] == s.sdks[k] && s'.owner == s.owner
    requires OtherEntriesSame(s, s', cap)
             && (cap in s.carrier ==> cap in s'.carrier && s'.carrier[cap] == s.carrier[cap])
    requires RecordersOff(s, s', cap)
    ensures SdkOk(s', k)
  {
    hide LocalOk;
    var d := s.sdks[k];
    if Carries(d.phase) && d.phase.candidate.captureId != cap {
      assert SameEntry(s, s', d.phase.candidate.captureId);
    }
  }

  lemma OtherRecorder(s: State, s': State, cap: Id, r: Id)
    requires RecorderOk(s, r) && r in s.recorders && r in s'.recorders && s'.recorders[r] == s.recorders[r]
    requires OtherEntriesSame(s, s', cap) && !Keeps(s.recorders[r], cap)
    ensures RecorderOk(s', r)
  {
    if s.recorders[r].candidate.Some? {
      assert SameEntry(s, s', s.recorders[r].candidate.value.captureId);
    }
  }

  lemma OtherOperation(s: State, s': State, cap: Id, id: Id)
    requires OperationOk(s, id) && SdksOff(s, s', cap) && s'.owner == s.owner && s'.books.active == s.books.active
    ensures OperationOk(s', id)
  {
    if id in s.owner {
      var k := s.owner[id];
      assert s'.sdks[k] == s.sdks[k] || SameTable(s.sdks[k], s'.sdks[k], cap);
    }
  }

  lemma SameBytes(s: State, s': State, cap: Id)
    requires SdksOff(s, s', cap)
    ensures GlobalBytes(s'.sdks) == GlobalBytes(s.sdks)
  {
    forall k | k in s.sdks ensures s'.sdks[k].globalBytes == s.sdks[k].globalBytes {
      assert s'.sdks[k] == s.sdks[k] || SameTable(s.sdks[k], s'.sdks[k], cap);
    }
  }

  /** A step about one capture keeps the invariant of the whole process. */
  lemma StepKeepsAll(s: State, s': State, cap: Id)
    requires Inv(s) && CandidateStep(s, s', cap) && Touched(s, s', cap)
    ensures Inv(s')
  {
    SameBytes(s, s', cap);
    hide Sum, Balanced, OperationOk, SdkOk, CaptureOk, RecorderOk, SameEntry, SameTable, SameRecorder, RateLaw, Spaced,
        TimesOrdered;
    forall id ensures OperationOk(s', id) {
      assert OperationOk(s, id);
      OtherOperation(s, s', cap, id);
    }
    forall x ensures CaptureOk(s', x) {
      if x != cap {
        assert CaptureOk(s, x);
        OtherCapture(s, s', cap, x);
      }
    }
    forall k ensures SdkOk(s', k) {
      if k !in s'.sdks {
        NoSdk(s', k);
      } else if s'.sdks[k] == s.sdks[k] {
        assert SdkOk(s, k);
        OtherSdk(s, s', cap, k);
      }
    }
    forall r ensures RecorderOk(s', r) {
      if r !in s'.recorders {
        NoRecorder(s', r);
      } else if s'.recorders[r] == s.recorders[r] && !Keeps(s.recorders[r], cap) {
        assert RecorderOk(s, r);
        OtherRecorder(s, s', cap, r);
      }
    }
  }

  lemma NoSdk(s: State, k: Id)
    requires k !in s.sdks
    ensures SdkOk(s, k)
  {
  }

  lemma NoRecorder(s: State, r: Id)
    requires r !in s.recorders
    ensures RecorderOk(s, r)
  {
  }

  // ---- what is known about one call --------------------------------------------------------------------

  lemma Facts(s: State, k: Id)
    requires Inv(s) && k in s.sdks
    ensures Balanced(s.books) && GateOk(s) && SdkOk(s, k)
    ensures Carries(s.sdks[k].phase) ==>
              var cap := s.sdks[k].phase.candidate.captureId;
              CaptureOk(s, cap) && PhaseOk(s, k, s.sdks[k].phase, s.sdks[k].sink)
  {
    assert SdkOk(s, k);
    if Carries(s.sdks[k].phase) {
      assert CaptureOk(s, s.sdks[k].phase.candidate.captureId);
    }
  }

  /** A recorder that keeps the capture is the one in whose custody it is. */
  lemma NobodyKeeps(s: State, cap: Id, r: Id)
    requires Inv(s) && r in s.recorders && Keeps(s.recorders[r], cap)
    ensures InPlace(s, cap, Kept(r))
  {
    assert RecorderOk(s, r);
  }

  /** A step of one Sdk's call that leaves recorders alone. */
  ghost predicate CallStep(s: State, s': State, k: Id, cap: Id) {
    && k in s.sdks && k in s'.sdks && s'.sdks == s.sdks[k := s'.sdks[k]] && SameTable(s.sdks[k], s'.sdks[k], cap)
    && s'.recorders == s.recorders && s'.owner == s.owner
    && s'.books.active == s.books.active && s'.books.activeBytes == s.books.activeBytes && Balanced(s'.books)
    && GateOk(s')
    && (cap in s.carrier ==> cap in s'.carrier && s'.carrier[cap] == s.carrier[cap])
    && OtherEntriesSame(s, s', cap)
    && (Carries(s'.sdks[k].phase) ==> cap in s'.carrier && s'.carrier[cap] == k)
    && (s'.sdks[k].phase.Dropping? ==> s'.sdks[k].phase.operationId in s'.sdks[k].operations)
    && (Carries(s'.sdks[k].phase) && !s'.sdks[k].phase.Sealed? ==> s'.sdks[k].phase.candidate.canonicalLength.Some?)
    && (cap in s.place && s.place[cap].Kept? ==> SameEntry(s, s', cap))
  }

  lemma CallLocal(s: State, s': State, k: Id, cap: Id)
    requires CallStep(s, s', k, cap) && SdkOk(s, k)
    ensures SdkOk(s', k)
  {
    hide Balanced, RateLaw, Spaced, TimesOrdered, OperationTotal, AllWellFormed;
  }

  /** The recorder that keeps the capture is not touched, and neither is the capture's entry. */
  lemma KeeperStays(s: State, s': State, cap: Id, r: Id)
    requires RecorderOk(s, r) && r in s.recorders && Keeps(s.recorders[r], cap) && s'.recorders == s.recorders
    requires cap in s.place && s.place[cap].Kept? ==> SameEntry(s, s', cap)
    ensures RecorderOk(s', r)
  {
  }

  lemma CallTouches(s: State, s': State, k: Id, cap: Id)
    requires CallStep(s, s', k, cap) && CaptureOk(s', cap) && SdkOk(s', k)
    requires forall r :: r in s'.recorders && Keeps(s'.recorders[r], cap) ==> RecorderOk(s', r)
    ensures CandidateStep(s, s', cap) && Touched(s, s', cap)
  {
    hide Balanced, GateOk, CaptureOk, SdkOk, RecorderOk, Keeps, OtherEntriesSame, SameEntry;
  }

  lemma CallKeeps(s: State, s': State, k: Id, cap: Id)
    requires Inv(s) && CallStep(s, s', k, cap) && CaptureOk(s', cap)
    ensures Inv(s')
  {
    Facts(s, k);
    CallLocal(s, s', k, cap);
    forall r | r in s'.recorders && Keeps(s'.recorders[r], cap) ensures RecorderOk(s', r) {
      assert RecorderOk(s, r);
      KeeperStays(s, s', cap, r);
    }
    hide Inv, Balanced, OperationOk, CaptureOk, SdkOk, GateOk, LocalOk, RecorderOk;
    CallTouches(s, s', k, cap);
    StepKeepsAll(s, s', cap);
  }

  /** A map edited at one key at most. */
  predicate EditAt<V(==)>(m: map<Id, V>, m': map<Id, V>, x: Id) {
    m' == m || m' == Removed(m, x) || (x in m' && m' == m[x := m'[x]])
  }

  lemma EditElsewhere<V>(m: map<Id, V>, m': map<Id, V>, x: Id, y: Id)
    requires EditAt(m, m', x) && x != y
    ensures (y in m <==> y in m') && (y in m ==> m'[y] == m[y])
  {
  }

  /** The state after a section of one Sdk's call about its candidate. */
  function CallResult(s: State, k: Id, d: SdkState, b: Books, place: map<Id, Place>): State {
    s.(books := b, sdks := s.sdks[k := d], place := place)
  }

  predicate CallEdit(s: State, k: Id, d: SdkState, b: Books, place: map<Id, Place>, cap: Id) {
    && k in s.sdks && SameTable(s.sdks[k], d, cap) && About(s.sdks[k].phase, cap) && !d.phase.Dropping?
    && b.active == s.books.active && b.activeBytes == s.books.activeBytes
    && EditAt(s.books.candidates, b.candidates, cap) && EditAt(s.place, place, cap)
    && (cap in s.place && s.place[cap].Kept? ==> place == s.place && b == s.books)
    && (Carries(d.phase) && !d.phase.Sealed? ==> d.phase.candidate.canonicalLength.Some?)
  }

  lemma EditIsStep(s: State, k: Id, d: SdkState, b: Books, place: map<Id, Place>, cap: Id)
    requires CallEdit(s, k, d, b, place, cap) && SdkOk(s, k) && Balanced(b) && GateOk(s)
    ensures CallStep(s, CallResult(s, k, d, b, place), k, cap)
  {
    hide Balanced, RateLaw, Spaced, TimesOrdered, LocalOk, EditAt;
    forall x | x != cap ensures SameEntry(s, CallResult(s, k, d, b, place), x) {
      EditElsewhere(s.books.candidates, b.candidates, cap, x);
      EditElsewhere(s.place, place, cap, x);
    }
  }

  lemma EditKeeps(s: State, k: Id, d: SdkState, b: Books, place: map<Id, Place>, cap: Id)
    requires Inv(s) && CallEdit(s, k, d, b, place, cap) && Balanced(b) && CaptureOk(CallResult(s, k, d, b, place), cap)
    ensures Inv(CallResult(s, k, d, b, place))
  {
    Facts(s, k);
    hide Inv, Balanced, GateOk, CallEdit, CallStep, CaptureOk, SdkOk;
    EditIsStep(s, k, d, b, place, cap);
    CallKeeps(s, CallResult(s, k, d, b, place), k, cap);
  }
}
