// Every section of every object keeps the ledger, the tables and the custody of all candidates right,
// whatever the other objects of the process do in between.

module CaptureLaws {
  import opened Arith
  import opened CandidateEntries
  import opened CaptureCustody
  import opened CaptureRuns
  import T = CaptureTable
  import opened Ledger
  import opened MapSums
  import opened Options
  import opened Records
  import opened Sections
  import opened StormGate

  // ---- operation tables ------------------------------------------------------------------------------

  lemma BeginKeeps(s: State, k: Id, id: Id, captureId: Id, payload: Option<seq<bv8>>, world: bool)
    requires Inv(s) && Enabled(s, BeginStep(k, id, captureId, payload, world))
    ensures Inv(Apply(s, BeginStep(k, id, captureId, payload, world)))
  {
    hide Inv, T.TableChange, BeginSection, Balanced, LocalOk;
    T.Facts(s, k, id);
    T.BeginChange(s.sdks[k], s.books, id, captureId, payload, world);
    var r := BeginSection(s.sdks[k], s.books, id, captureId, payload, world);
    T.TableKeeps(s, k, id, r.sdk, r.books);
  }

  lemma BindKeeps(s: State, k: Id, id: Id)
    requires Inv(s) && Enabled(s, Bind(k, id))
    ensures Inv(Apply(s, Bind(k, id)))
  {
    hide Inv, T.TableChange, BindSection, Balanced, LocalOk;
    T.Facts(s, k, id);
    T.BindChange(s.sdks[k], s.books, id);
    T.TableKeeps(s, k, id, BindSection(s.sdks[k], id).1, s.books);
  }

  lemma AppendKeeps(s: State, k: Id, id: Id, kind: EventKind, payload: Option<seq<bv8>>)
    requires Inv(s) && Enabled(s, Append(k, id, kind, payload))
    ensures Inv(Apply(s, Append(k, id, kind, payload)))
  {
    hide Inv, T.TableChange, AppendSection, Balanced, LocalOk;
    T.Facts(s, k, id);
    T.AppendChange(s.sdks[k], s.books, id, kind, payload);
    var r := AppendSection(s.sdks[k], s.books, id, kind, payload);
    T.TableKeeps(s, k, id, r.sdk, r.books);
  }

  /** Deleting an operation, whatever else the section writes down. */
  lemma DeletedChange(d: SdkState, b: Books, id: Id, d': SdkState)
    requires LocalOk(d) && Balanced(b) && T.Agrees(d, b, id) && id in d.operations && !Carries(d.phase)
    requires d' == WithoutOperation(d, id).(phase := d'.phase, recall := d'.recall, outcomes := d'.outcomes)
             && !Carries(d'.phase) && !d'.phase.Dropping?
    ensures T.TableChange(d, b, id, d', Released(b, id))
  {
    T.DeleteChange(d, b, id);
    hide OperationTotal, AllWellFormed, Balanced, Released, NumberedOk;
    T.NumbersStay(WithoutOperation(d, id), d');
  }

  lemma DropKeeps(s: State, k: Id)
    requires Inv(s) && Enabled(s, Drop(k))
    ensures Inv(Apply(s, Drop(k)))
  {
    hide Inv, T.TableChange, Balanced, LocalOk, WithoutOperation;
    var id := s.sdks[k].phase.operationId;
    T.Facts(s, k, id);
    var r := DropSection(s.sdks[k], s.books);
    Unrelated(s.sdks[k], id);
    DeletedChange(s.sdks[k], s.books, id, r.sdk);
    T.TableKeeps(s, k, id, r.sdk, r.books);
  }

  lemma Unrelated(d: SdkState, id: Id)
    requires id in d.operations
    ensures var d' := WithoutOperation(d, id); d'.recall == d.recall && d'.outcomes == d.outcomes && d'.phase == d.phase
  {
  }

  lemma ForgetKeeps(s: State, k: Id, id: Id, counted: bool)
    requires Inv(s) && Enabled(s, Forget(k, id, counted))
    ensures Inv(Apply(s, Forget(k, id, counted)))
  {
    hide Inv, T.TableChange, Balanced, LocalOk, WithoutOperation;
    T.Facts(s, k, id);
    var d := s.sdks[k];
    var r := ForgetSection(d, s.books, id, counted);
    if id in d.operations {
      Unrelated(d, id);
      DeletedChange(d, s.books, id, r.sdk);
    } else {
      NothingChanges(d, s.books, id);
    }
    T.TableKeeps(s, k, id, r.sdk, r.books);
  }

  lemma NothingChanges(d: SdkState, b: Books, id: Id)
    requires LocalOk(d) && Balanced(b) && !Carries(d.phase)
    ensures T.TableChange(d, b, id, d, b)
  {
  }

  lemma EndOneKeeps(s: State, k: Id, id: Id)
    requires Inv(s) && Enabled(s, EndOne(k, id))
    ensures Inv(Apply(s, EndOne(k, id)))
  {
    hide Inv, T.TableChange, Balanced, LocalOk, WithoutOperation;
    T.Facts(s, k, id);
    Unrelated(s.sdks[k], id);
    DeletedChange(s.sdks[k], s.books, id, WithoutOperation(s.sdks[k], id));
    T.TableKeeps(s, k, id, WithoutOperation(s.sdks[k], id), Released(s.books, id));
  }

  /** A section that touches neither table nor ledger. */
  lemma QuietKeeps(s: State, k: Id, d: SdkState)
    requires Inv(s) && k in s.sdks && LocalOk(d) && !Carries(d.phase) && !Carries(s.sdks[k].phase)
    requires d.sink == s.sdks[k].sink && d.operations == s.sdks[k].operations && d.globalBytes == s.sdks[k].globalBytes
    ensures Inv(WithSdk(s, k, d))
  {
    hide Inv, Balanced, LocalOk;
    var id :| id !in d.operations.Keys + s.owner.Keys || true;
    T.Facts(s, k, id);
    T.TableKeeps(s, k, id, d, s.books);
    assert InTable(s, k, id, d, s.books).owner == s.owner;
    assert InTable(s, k, id, d, s.books) == WithSdk(s, k, d);
  }

  lemma ObserveKeeps(s: State, k: Id)
    requires Inv(s) && Enabled(s, Observe(k))
    ensures Inv(Apply(s, Observe(k)))
  {
    hide Inv, OperationTotal, AllWellFormed;
    T.Facts(s, k, 0);
    T.NumbersStay(s.sdks[k], ObserveSection(s.sdks[k]));
    QuietKeeps(s, k, ObserveSection(s.sdks[k]));
  }

  lemma NumberKeeps(s: State, k: Id, call: Call, id: Id, payload: Option<seq<bv8>>)
    requires Inv(s) && Enabled(s, Number(k, call, id, payload))
    ensures Inv(Apply(s, Number(k, call, id, payload)))
  {
    hide Inv, OperationTotal, AllWellFormed;
    T.Facts(s, k, id);
    QuietKeeps(s, k, NumberSection(s.sdks[k], call, id, payload).1);
  }

  lemma StartEndKeeps(s: State, k: Id)
    requires Inv(s) && Enabled(s, StartEnd(k))
    ensures Inv(Apply(s, StartEnd(k)))
  {
    hide Inv, OperationTotal, AllWellFormed;
    T.Facts(s, k, 0);
    QuietKeeps(s, k, s.sdks[k].(phase := Ending));
  }

  // ---- a failing operation -----------------------------------------------------------------------------

  lemma NotCarriedIsAway(s: State, cap: Id)
    requires Inv(s) && cap !in s.carrier
    ensures IsAway(s, cap) && CaptureOk(s, cap)
    ensures forall k :: k in s.sdks ==> !About(s.sdks[k].phase, cap)
  {
    assert CaptureOk(s, cap);
    forall k | k in s.sdks ensures !About(s.sdks[k].phase, cap) {
      assert SdkOk(s, k);
    }
  }

  /** The table's part of a removal. */
  lemma RemoveChange(d: SdkState, b: Books, call: Call, d': SdkState)
    requires LocalOk(d) && Balanced(b) && d.phase.Free? && call in d.numbered
             && T.Agrees(d, b, d.numbered[call].operationId)
    requires var id := d.numbered[call].operationId; var d0 := d.(numbered := Removed(d.numbered, call));
             id in d.operations && d' == WithoutOperation(d0, id).(recall := d'.recall, outcomes := d'.outcomes)
    ensures T.TableChange(d, b, d.numbered[call].operationId, d', Released(b, d.numbered[call].operationId))
  {
    var id := d.numbered[call].operationId;
    var d0 := d.(numbered := Removed(d.numbered, call));
    FewerNumbers(d, call);
    hide OperationTotal, AllWellFormed, Balanced, NumberedOk, Removed;
    DeletedChange(d0, b, id, d');
  }

  lemma FewerNumbers(d: SdkState, call: Call)
    requires NumberedOk(d)
    ensures NumberedOk(d.(numbered := Removed(d.numbered, call)))
  {
  }

  lemma RemoveKeeps(s: State, k: Id, call: Call, e: Encoding)
    requires Inv(s) && Enabled(s, Remove(k, call, e))
    ensures Inv(Apply(s, Remove(k, call, e)))
  {
    hide Inv, T.TableChange, Balanced, OperationTotal, AllWellFormed, NumberedOk, WithoutOperation, Removed, Seal;
    var d := s.sdks[k];
    var id := d.numbered[call].operationId;
    var d0 := d.(numbered := Removed(d.numbered, call));
    T.Facts(s, k, id);
    if id !in d.operations {
      FewerNumbers(d, call);
      T.NumbersStay(d0, Concluded(d0, call, Rejected));
      QuietKeeps(s, k, Concluded(d0, call, Rejected));
    } else {
      Unrelated(d0, id);
      var r := RemoveSection(d, s.books, call, e);
      if r.sdk.phase.Sealed? {
        var d1 := WithoutOperation(d0, id);
        RemoveChange(d, s.books, call, d1);
        T.TableKeeps(s, k, id, d1, r.books);
        SealKeeps(InTable(s, k, id, d1, r.books), k, r.sdk.phase);
        assert Apply(s, Remove(k, call, e)) == Sealing(InTable(s, k, id, d1, r.books), k, r.sdk.phase);
      } else {
        RemoveChange(d, s.books, call, r.sdk);
        T.TableKeeps(s, k, id, r.sdk, r.books);
      }
    }
  }

  function Sealing(s: State, k: Id, phase: Phase): State
    requires k in s.sdks && phase.Sealed?
  {
    WithSdk(s, k, s.sdks[k].(phase := phase)).(carrier := s.carrier[phase.candidate.captureId := k])
  }

  /** A sealed candidate is carried by its Sdk from now on. */
  lemma SealKeeps(s: State, k: Id, phase: Phase)
    requires Inv(s) && k in s.sdks && s.sdks[k].phase.Free? && phase.Sealed? && phase.candidate.captureId !in s.carrier
    ensures Inv(Sealing(s, k, phase))
  {
    var cap := phase.candidate.captureId;
    NotCarriedIsAway(s, cap);
    Facts(s, k);
    hide Inv, Balanced, OperationTotal, AllWellFormed, NumberedOk, LocalOk;
    CallKeeps(s, Sealing(s, k, phase), k, cap);
  }

  lemma DecideLaw(admissions: seq<Admission>, last: nat, identity: nat, now: nat)
    requires TimesOrdered(admissions, last) && RateLaw(admissions) && Spaced(admissions) && last <= now
    ensures TimesOrdered(admissions, now)
    ensures Decide(admissions, identity, now).Admitted? ==>
              var h' := admissions + [Admission(identity, now)]; TimesOrdered(h', now) && RateLaw(h') && Spaced(h')
  {
    hide RateLaw, RateAllows;
    if Decide(admissions, identity, now).Admitted? {
      AdmissionKeepsRateLaw(admissions, identity, now);
      InsertIsExact(admissions, identity, now);
    }
  }

  /** What is known when a section about a candidate begins. */
  ghost predicate Ready(s: State, k: Id) {
    && k in s.sdks && SdkOk(s, k) && Carries(s.sdks[k].phase)
    && CaptureOk(s, s.sdks[k].phase.candidate.captureId) && PhaseOk(s, k, s.sdks[k].phase, s.sdks[k].sink)
  }

  lemma IsReady(s: State, k: Id)
    requires Inv(s) && k in s.sdks && Carries(s.sdks[k].phase)
    ensures Ready(s, k) && Balanced(s.books)
  {
    Facts(s, k);
  }

  /** The section is an edit of its own capture, and leaves that capture in order. */
  ghost predicate GoodEdit(s: State, k: Id, d: SdkState, b: Books, place: map<Id, Place>, cap: Id) {
    CallEdit(s, k, d, b, place, cap) && CaptureOk(CallResult(s, k, d, b, place), cap)
  }

  lemma GoodEditKeeps(s: State, k: Id, d: SdkState, b: Books, place: map<Id, Place>, cap: Id)
    requires Inv(s) && Balanced(b) && GoodEdit(s, k, d, b, place, cap)
    ensures Inv(CallResult(s, k, d, b, place))
  {
    hide Inv, Balanced, CallEdit, CaptureOk;
    EditKeeps(s, k, d, b, place, cap);
  }

  lemma AdmitKeeps(s: State, k: Id, now: nat)
    requires Inv(s) && Enabled(s, Admit(k, now))
    ensures Inv(ApplyAdmit(s, k, now))
  {
    Facts(s, k);
    var cap := s.sdks[k].phase.candidate.captureId;
    DecideLaw(s.admissions, s.now, s.sdks[k].phase.storm, now);
    hide Inv, Balanced, OperationTotal, AllWellFormed, NumberedOk, Decide, RateLaw, Spaced, TimesOrdered;
    var s1 := s.(now := now, admissions := ApplyAdmit(s, k, now).admissions);
    TimeKeeps(s, s1);
    var d := AdmitSection(s.sdks[k], Decide(s.admissions, s.sdks[k].phase.storm, now));
    IsReady(s1, k);
    AdmitEdit(s1, k, d);
    hide GoodEdit;
    GoodEditKeeps(s1, k, d, s1.books, s1.place, cap);
  }

  lemma TimeKeeps(s: State, s': State)
    requires Inv(s) && s' == s.(now := s'.now, admissions := s'.admissions) && GateOk(s')
    ensures Inv(s')
  {
    hide Balanced, Sum, LocalOk, RateLaw, Spaced, TimesOrdered;
    forall id ensures OperationOk(s', id) { assert OperationOk(s, id); }
    forall k ensures SdkOk(s', k) { assert SdkOk(s, k); }
    forall cap ensures CaptureOk(s', cap) { assert CaptureOk(s, cap); }
    forall x ensures RecorderOk(s', x) { assert RecorderOk(s, x); }
  }

  lemma AdmitEdit(s: State, k: Id, d: SdkState)
    requires k in s.sdks && s.sdks[k].phase.Sealed? && Ready(s, k)
    requires exists decision :: d == AdmitSection(s.sdks[k], decision)
    ensures GoodEdit(s, k, d, s.books, s.place, s.sdks[k].phase.candidate.captureId)
  {
    hide OperationTotal, AllWellFormed, NumberedOk;
  }

  lemma HandOffEdit(s: State, k: Id)
    requires Enabled(s, HandOff(k)) && Ready(s, k)
    ensures var r := HandOffSection(s.sdks[k], s.books); var cap := s.sdks[k].phase.candidate.captureId;
            GoodEdit(s, k, r.sdk, r.books, if r.sdk.phase.HandedOff? then s.place[cap := Flight(k)] else s.place, cap)
  {
    hide OperationTotal, AllWellFormed, NumberedOk;
  }

  lemma HandOffKeeps(s: State, k: Id)
    requires Inv(s) && Enabled(s, HandOff(k))
    ensures Inv(ApplyHandOff(s, k))
  {
    hide Inv, Balanced, GoodEdit, Ready;
    IsReady(s, k);
    HandOffEdit(s, k);
    var c := s.sdks[k].phase.candidate;
    if MayHandOff(s.books, c.captureId, Length(c)) {
      EnteredBalances(s.books, c.captureId, Length(c), Handoff);
    }
    var r := HandOffSection(s.sdks[k], s.books);
    GoodEditKeeps(s, k, r.sdk, r.books, if r.sdk.phase.HandedOff? then s.place[c.captureId := Flight(k)] else s.place,
                  c.captureId);
  }

  /** `claim_candidate` never refuses a handoff, whatever happened since it was made. */
  lemma ClaimSucceeds(s: State, k: Id)
    requires Inv(s) && Enabled(s, Claim(k))
    ensures Claimable(s.books, s.sdks[k].phase.candidate.captureId, Length(s.sdks[k].phase.candidate))
    ensures ApplyClaim(s, k).sdks[k].phase.InSink?
  {
    Facts(s, k);
  }

  lemma ClaimKeeps(s: State, k: Id)
    requires Inv(s) && Enabled(s, Claim(k))
    ensures Inv(ApplyClaim(s, k))
  {
    Facts(s, k);
    var c := s.sdks[k].phase.candidate;
    ClaimSucceeds(s, k);
    ClaimedBalances(s.books, c.captureId, Length(c));
    hide Inv, Balanced, OperationTotal, AllWellFormed, NumberedOk, GateOk;
    var r := ClaimSection(s.sdks[k], s.books);
    EditKeeps(s, k, r.sdk, r.books, s.place[c.captureId := Flight(k)], c.captureId);
  }

  lemma AnswerEdit(s: State, k: Id, sent: bool)
    requires Enabled(s, Answer(k, sent)) && Ready(s, k)
    ensures var d := s.sdks[k]; var cap := d.phase.candidate.captureId;
            GoodEdit(s, k, AnswerSection(d, sent), s.books,
                     if d.phase.InSink? && sent then s.place[cap := Elsewhere] else s.place, cap)
  {
    hide OperationTotal, AllWellFormed, NumberedOk;
  }

  lemma AnswerKeeps(s: State, k: Id, sent: bool)
    requires Inv(s) && Enabled(s, Answer(k, sent))
    ensures Inv(ApplyAnswer(s, k, sent))
  {
    hide Inv, Balanced, GoodEdit, Ready;
    IsReady(s, k);
    AnswerEdit(s, k, sent);
    var d := s.sdks[k];
    var cap := d.phase.candidate.captureId;
    GoodEditKeeps(s, k, AnswerSection(d, sent), s.books,
                  if d.phase.InSink? && sent then s.place[cap := Elsewhere] else s.place, cap);
  }

  lemma GiveUpEdit(s: State, k: Id)
    requires Enabled(s, GiveUp(k)) && Ready(s, k)
    ensures var r := GiveUpSection(s.sdks[k], s.books); var cap := s.sdks[k].phase.candidate.captureId;
            GoodEdit(s, k, r.sdk, r.books, Removed(s.place, cap), cap)
  {
    hide OperationTotal, AllWellFormed, NumberedOk;
  }

  lemma GiveUpKeeps(s: State, k: Id)
    requires Inv(s) && Enabled(s, GiveUp(k))
    ensures Inv(ApplyGiveUp(s, k))
  {
    hide Inv, Balanced, GoodEdit, Ready, Returned, Removed;
    IsReady(s, k);
    GiveUpEdit(s, k);
    var cap := s.sdks[k].phase.candidate.captureId;
    ReturnedBalances(s.books, cap);
    var r := GiveUpSection(s.sdks[k], s.books);
    GoodEditKeeps(s, k, r.sdk, r.books, Removed(s.place, cap), cap);
  }

  lemma ReturnedKeepsRest(b: Books, cap: Id)
    ensures var b' := Returned(b, cap);
            b'.active == b.active && b'.activeBytes == b.activeBytes && cap !in b'.candidates
  {
  }

  lemma CheckEdit(s: State, k: Id)
    requires Enabled(s, Check(k)) && Ready(s, k)
    ensures GoodEdit(s, k, CheckSection(s.sdks[k], s.books), s.books, s.place, s.sdks[k].phase.candidate.captureId)
  {
    hide OperationTotal, AllWellFormed, NumberedOk;
  }

  lemma CheckKeeps(s: State, k: Id)
    requires Inv(s) && Enabled(s, Check(k))
    ensures Inv(WithSdk(s, k, CheckSection(s.sdks[k], s.books)))
  {
    hide Inv, Balanced, GoodEdit, Ready;
    IsReady(s, k);
    CheckEdit(s, k);
    GoodEditKeeps(s, k, CheckSection(s.sdks[k], s.books), s.books, s.place, s.sdks[k].phase.candidate.captureId);
  }

  lemma SettleEdit(s: State, k: Id)
    requires Enabled(s, Settle(k)) && Ready(s, k)
    ensures var r := SettleSection(s.sdks[k], s.books); var cap := s.sdks[k].phase.candidate.captureId;
            GoodEdit(s, k, r.sdk, r.books, if s.sdks[k].phase.retained then s.place else Removed(s.place, cap), cap)
  {
    hide OperationTotal, AllWellFormed, NumberedOk;
  }

  lemma SettleKeeps(s: State, k: Id)
    requires Inv(s) && Enabled(s, Settle(k))
    ensures Inv(ApplySettle(s, k))
  {
    hide Inv, Balanced, GoodEdit, Ready, Returned, Removed;
    IsReady(s, k);
    SettleEdit(s, k);
    var cap := s.sdks[k].phase.candidate.captureId;
    ReturnedBalances(s.books, cap);
    var r := SettleSection(s.sdks[k], s.books);
    GoodEditKeeps(s, k, r.sdk, r.books, if s.sdks[k].phase.retained then s.place else Removed(s.place, cap), cap);
  }

  // ---- recorders and other sinks -------------------------------------------------------------------------

  /** The recorder counts the candidate as incomplete: nothing else of it changes. */
  lemma CountKeeps(s: State, r: Id, rec: RecorderState)
    requires Inv(s) && r in s.recorders && rec == s.recorders[r].(incomplete := rec.incomplete)
    ensures Inv(s.(recorders := s.recorders[r := rec]))
  {
    var s' := s.(recorders := s.recorders[r := rec]);
    hide Balanced, Sum, RateLaw, Spaced, TimesOrdered, LocalOk;
    forall id ensures OperationOk(s', id) { assert OperationOk(s, id); }
    forall k ensures SdkOk(s', k) { assert SdkOk(s, k); }
    forall cap ensures CaptureOk(s', cap) { assert CaptureOk(s, cap); }
    forall x ensures RecorderOk(s', x) { assert RecorderOk(s, x); }
  }

  /** The recorder stores a candidate that is claimed for it. */
  lemma StoreKeeps(s: State, k: Id)
    requires Inv(s) && Enabled(s, Keep(k)) && s.sdks[k].phase.InSink?
             && Accepts(s.recorders[s.sdks[k].sink.recorder], s.sdks[k].phase.candidate)
    ensures Inv(ApplyKeep(s, k))
  {
    Facts(s, k);
    var s' := ApplyKeep(s, k);
    var cap, r := s.sdks[k].phase.candidate.captureId, s.sdks[k].sink.recorder;
    StoreFrame(s, k);
    StoreTouches(s, k);
    hide Inv, CandidateStep, Touched, ApplyKeep;
    StepKeepsAll(s, s', cap);
  }

  lemma StoreFrame(s: State, k: Id)
    requires Enabled(s, Keep(k)) && s.sdks[k].phase.InSink?
             && Accepts(s.recorders[s.sdks[k].sink.recorder], s.sdks[k].phase.candidate)
    requires Balanced(s.books) && GateOk(s)
    ensures CandidateStep(s, ApplyKeep(s, k), s.sdks[k].phase.candidate.captureId)
  {
    hide Balanced, RateLaw, Spaced, TimesOrdered;
  }

  lemma StoreTouches(s: State, k: Id)
    requires Inv(s) && Enabled(s, Keep(k)) && s.sdks[k].phase.InSink?
             && Accepts(s.recorders[s.sdks[k].sink.recorder], s.sdks[k].phase.candidate)
    ensures Touched(s, ApplyKeep(s, k), s.sdks[k].phase.candidate.captureId)
  {
    Facts(s, k);
    var s' := ApplyKeep(s, k);
    var cap, r := s.sdks[k].phase.candidate.captureId, s.sdks[k].sink.recorder;
    hide Balanced, OperationTotal, AllWellFormed, NumberedOk, GateOk, OperationOk;
    forall x | x in s.recorders ensures !Keeps(s.recorders[x], cap) {
      if Keeps(s.recorders[x], cap) {
        NobodyKeeps(s, cap, x);
      }
    }
    assert CaptureOk(s', cap);
  }

  /** The recorder keeps the claimed candidate, or counts it as incomplete. */
  lemma KeepKeeps(s: State, k: Id)
    requires Inv(s) && Enabled(s, Keep(k))
    ensures Inv(ApplyKeep(s, k))
  {
    var d := s.sdks[k];
    var r := d.sink.recorder;
    if d.phase.InSink? && Accepts(s.recorders[r], d.phase.candidate) {
      StoreKeeps(s, k);
    } else {
      Facts(s, k);
      hide Balanced, OperationTotal, AllWellFormed, NumberedOk, GateOk, Inv;
      var rec := KeepSection(s.recorders[r], d.phase.candidate, d.phase.InSink?).1;
      CountKeeps(s, r, rec);
      var s1 := s.(recorders := s.recorders[r := rec]);
      EditKeeps(s1, k, AnswerSection(d, false), s1.books, s1.place, d.phase.candidate.captureId);
    }
  }

  lemma TakeKeeps(s: State, r: Id)
    requires Inv(s) && Enabled(s, Take(r))
    ensures Inv(ApplyTake(s, r))
  {
    var s' := ApplyTake(s, r);
    var cap := s.recorders[r].candidate.value.captureId;
    assert RecorderOk(s, r) && CaptureOk(s, cap);
    TakeTouches(s, r);
    TakeFrame(s, r);
    hide Inv, CandidateStep, Touched, ApplyTake;
    StepKeepsAll(s, s', cap);
  }

  lemma TakeFrame(s: State, r: Id)
    requires Enabled(s, Take(r)) && Balanced(s.books) && GateOk(s)
    ensures CandidateStep(s, ApplyTake(s, r), s.recorders[r].candidate.value.captureId)
  {
    hide Balanced, RateLaw, Spaced, TimesOrdered;
  }

  lemma TakeTouches(s: State, r: Id)
    requires Inv(s) && Enabled(s, Take(r))
    ensures Touched(s, ApplyTake(s, r), s.recorders[r].candidate.value.captureId)
  {
    var s' := ApplyTake(s, r);
    var cap := s.recorders[r].candidate.value.captureId;
    assert RecorderOk(s, r) && CaptureOk(s, cap);
    hide Balanced, LocalOk, GateOk, OperationOk, SdkOk;
    forall x | x in s'.recorders ensures !Keeps(s'.recorders[x], cap) {
      if x != r && Keeps(s.recorders[x], cap) {
        NobodyKeeps(s, cap, x);
      }
    }
    assert CaptureOk(s', cap);
  }

  /** An entry in nobody's custody here goes, or a new one comes: Sdks and recorders stay as they are. */
  lemma BooksKeep(s: State, b: Books, place: map<Id, Place>, cap: Id)
    requires Inv(s) && Balanced(b) && b.active == s.books.active && b.activeBytes == s.books.activeBytes
    requires EditAt(s.books.candidates, b.candidates, cap) && EditAt(s.place, place, cap)
    requires forall r :: r in s.recorders ==> !Keeps(s.recorders[r], cap)
    requires CaptureOk(s.(books := b, place := place), cap)
    ensures Inv(s.(books := b, place := place))
  {
    var s' := s.(books := b, place := place);
    hide Balanced, RateLaw, Spaced, TimesOrdered, EditAt;
    forall x | x != cap ensures SameEntry(s, s', x) {
      EditElsewhere(s.books.candidates, b.candidates, cap, x);
      EditElsewhere(s.place, place, cap, x);
    }
    hide Inv, CaptureOk, SdkOk, RecorderOk;
    StepKeepsAll(s, s', cap);
  }

  /** An entry that is not kept by a recorder is kept by none. */
  lemma NotKept(s: State, cap: Id)
    requires Inv(s) && (cap in s.place ==> !s.place[cap].Kept?)
    ensures CaptureOk(s, cap) && forall r :: r in s.recorders ==> !Keeps(s.recorders[r], cap)
  {
    assert CaptureOk(s, cap);
    forall r | r in s.recorders ensures !Keeps(s.recorders[r], cap) {
      if Keeps(s.recorders[r], cap) {
        NobodyKeeps(s, cap, r);
      }
    }
  }

  /** An entry on its way out, or another sink's, is released. */
  lemma ReleaseKeeps(s: State, cap: Id)
    requires Inv(s) && (cap in s.place ==> s.place[cap].Leaving? || s.place[cap].Elsewhere?)
    ensures Inv(Gone(s, Returned(s.books, cap), cap))
  {
    NotKept(s, cap);
    ReturnedBalances(s.books, cap);
    ReturnedKeepsRest(s.books, cap);
    hide Inv, Balanced, Returned;
    BooksKeep(s, Returned(s.books, cap), Removed(s.place, cap), cap);
  }

  lemma EnteredOk(s: State, cap: Id, bytes: nat)
    requires CaptureOk(s, cap) && MayHandOff(s.books, cap, bytes)
    ensures CaptureOk(s.(books := Entered(s.books, cap, bytes, Retained), place := s.place[cap := Elsewhere]), cap)
  {
  }

  lemma EnteredEdits(s: State, cap: Id, bytes: nat)
    ensures var b := Entered(s.books, cap, bytes, Retained);
            && b.active == s.books.active && b.activeBytes == s.books.activeBytes
            && EditAt(s.books.candidates, b.candidates, cap) && EditAt(s.place, s.place[cap := Elsewhere], cap)
  {
  }

  lemma EnteredKeeps(s: State, cap: Id, bytes: nat)
    requires Inv(s) && MayHandOff(s.books, cap, bytes)
    ensures Inv(s.(books := Entered(s.books, cap, bytes, Retained), place := s.place[cap := Elsewhere]))
  {
    assert Balanced(s.books);
    assert CaptureOk(s, cap);
    hide Balanced, CaptureOk, Inv, Entered, MayHandOff, EditAt;
    FreshPlace(s, cap, bytes);
    NotKept(s, cap);
    EnteredBalances(s.books, cap, bytes, Retained);
    EnteredOk(s, cap, bytes);
    EnteredEdits(s, cap, bytes);
    BooksKeep(s, Entered(s.books, cap, bytes, Retained), s.place[cap := Elsewhere], cap);
  }

  lemma FreshPlace(s: State, cap: Id, bytes: nat)
    requires CaptureOk(s, cap) && MayHandOff(s.books, cap, bytes)
    ensures cap !in s.place
  {
  }

  lemma PutElsewhereKeeps(s: State, cap: Id, bytes: nat)
    requires Inv(s) && Enabled(s, PutElsewhere(cap, bytes))
    ensures Inv(Apply(s, PutElsewhere(cap, bytes)))
  {
    EnteredKeeps(s, cap, bytes);
    hide Inv, Entered, MayHandOff;
  }

  /** A recorder without a candidate, or an Sdk without operations, comes or goes. */
  lemma NewRecorderKeeps(s: State, r: Id, rec: RecorderState)
    requires Inv(s) && r !in s.recorders && rec.candidate.None? && rec.bytes == 0
    ensures Inv(s.(recorders := s.recorders[r := rec]))
  {
    var s' := s.(recorders := s.recorders[r := rec]);
    hide Balanced, Sum, RateLaw, Spaced, TimesOrdered, LocalOk;
    forall id ensures OperationOk(s', id) { assert OperationOk(s, id); }
    forall k ensures SdkOk(s', k) { assert SdkOk(s, k); }
    forall cap ensures CaptureOk(s', cap) { assert CaptureOk(s, cap); }
    forall x ensures RecorderOk(s', x) { assert RecorderOk(s, x); }
  }

  lemma NoRecorderKeeps(s: State, r: Id)
    requires Inv(s) && r in s.recorders && s.recorders[r].candidate.None?
    requires forall k :: k in s.sdks ==> s.sdks[k].sink != RecorderSink(r)
    ensures Inv(s.(recorders := Removed(s.recorders, r)))
  {
    var s' := s.(recorders := Removed(s.recorders, r));
    hide Balanced, Sum, RateLaw, Spaced, TimesOrdered, LocalOk;
    forall id ensures OperationOk(s', id) { assert OperationOk(s, id); }
    forall k ensures SdkOk(s', k) { assert SdkOk(s, k); }
    forall cap ensures CaptureOk(s', cap) { assert CaptureOk(s, cap); }
    forall x ensures RecorderOk(s', x) { assert RecorderOk(s, x); }
  }

  lemma EndRecorderKeeps(s: State, r: Id)
    requires Inv(s) && Enabled(s, EndRecorder(r))
    ensures Inv(ApplyEndRecorder(s, r))
  {
    var rec := s.recorders[r];
    if rec.candidate.None? {
      NoRecorderKeeps(s, r);
    } else {
      var cap := rec.candidate.value.captureId;
      var s1 := ApplyTake(s, r);
      var s2 := Gone(s1, Returned(s1.books, cap), cap);
      TakeKeeps(s, r);
      hide Inv, Returned;
      ReleaseKeeps(s1, cap);
      NoRecorderKeeps(s2, r);
      RemovedReplaced(s.recorders, r, TakeSection(rec).1);
      RemovedReplaced(s.place, cap, Leaving);
      assert ApplyEndRecorder(s, r) == s2.(recorders := Removed(s2.recorders, r));
    }
  }

  /** What the invariant says about one identifier, of whatever kind. */
  ghost predicate AllOk(s: State, x: Id) {
    OperationOk(s, x) && SdkOk(s, x) && CaptureOk(s, x) && RecorderOk(s, x)
  }

  lemma Known(s: State, x: Id)
    requires Inv(s)
    ensures AllOk(s, x) && GateOk(s) && Balanced(s.books) && s.books.activeBytes == Sum(GlobalBytes(s.sdks))
  {
    assert OperationOk(s, x) && SdkOk(s, x) && CaptureOk(s, x) && RecorderOk(s, x);
  }

  lemma Assembled(s: State)
    requires Balanced(s.books) && s.books.activeBytes == Sum(GlobalBytes(s.sdks)) && GateOk(s)
    requires forall x :: AllOk(s, x)
    ensures Inv(s)
  {
    hide OperationOk, SdkOk, CaptureOk, RecorderOk, Balanced, GateOk;
    forall x ensures OperationOk(s, x) && SdkOk(s, x) && CaptureOk(s, x) && RecorderOk(s, x) {
      assert AllOk(s, x);
    }
  }

  lemma NewSdkAt(s: State, k: Id, sink: Sink, x: Id)
    requires Enabled(s, NewSdk(k, sink)) && AllOk(s, x)
    ensures var s' := WithSdk(s, k, NewSdkState(sink));
            OperationOk(s', x) && (x != k ==> SdkOk(s', x)) && CaptureOk(s', x) && RecorderOk(s', x)
  {
    hide LocalOk;
  }

  lemma NewSdkOk(s: State, k: Id, sink: Sink)
    requires Enabled(s, NewSdk(k, sink))
    ensures SdkOk(WithSdk(s, k, NewSdkState(sink)), k)
  {
    assert OperationBytes(map[]) == map[];
  }

  lemma NewSdkBytes(s: State, k: Id, sink: Sink)
    requires k !in s.sdks && s.books.activeBytes == Sum(GlobalBytes(s.sdks))
    ensures s.books.activeBytes == Sum(GlobalBytes(s.sdks[k := NewSdkState(sink)]))
  {
    SumInsert(GlobalBytes(s.sdks), k, 0);
    assert GlobalBytes(s.sdks[k := NewSdkState(sink)]) == GlobalBytes(s.sdks)[k := 0];
  }

  lemma NewSdkKeeps(s: State, k: Id, sink: Sink)
    requires Inv(s) && Enabled(s, NewSdk(k, sink))
    ensures Inv(WithSdk(s, k, NewSdkState(sink)))
  {
    hide Inv, OperationOk, SdkOk, CaptureOk, RecorderOk, Balanced, RateLaw, Spaced, TimesOrdered, Sum;
    var s' := WithSdk(s, k, NewSdkState(sink));
    forall x ensures AllOk(s', x) {
      Known(s, x);
      NewSdkAt(s, k, sink, x);
      if x == k {
        NewSdkOk(s, k, sink);
      }
    }
    Known(s, k);
    NewSdkBytes(s, k, sink);
    Assembled(s');
  }

  lemma EndAt(s: State, k: Id, x: Id)
    requires Enabled(s, End(k)) && AllOk(s, x)
    ensures AllOk(s.(sdks := Removed(s.sdks, k)), x)
  {
    hide LocalOk;
  }

  lemma EndBytes(s: State, k: Id)
    requires Enabled(s, End(k)) && SdkOk(s, k) && s.books.activeBytes == Sum(GlobalBytes(s.sdks))
    ensures s.books.activeBytes == Sum(GlobalBytes(Removed(s.sdks, k)))
  {
    assert OperationBytes(map[]) == map[];
    SumRemoved(GlobalBytes(s.sdks), k);
    assert GlobalBytes(Removed(s.sdks, k)) == Removed(GlobalBytes(s.sdks), k);
  }

  lemma EndKeeps(s: State, k: Id)
    requires Inv(s) && Enabled(s, End(k))
    ensures Inv(s.(sdks := Removed(s.sdks, k)))
  {
    hide Inv, OperationOk, SdkOk, CaptureOk, RecorderOk, Balanced, RateLaw, Spaced, TimesOrdered, Sum, Removed;
    var s' := s.(sdks := Removed(s.sdks, k));
    forall x ensures AllOk(s', x) {
      Known(s, x);
      EndAt(s, k, x);
    }
    Known(s, k);
    EndBytes(s, k);
    Assembled(s');
  }

  // ---- every run -----------------------------------------------------------------------------------------

  lemma TableStepKeeps(s: State, step: Step)
    requires Inv(s) && Enabled(s, step)
    requires step.BeginStep? || step.Bind? || step.Append? || step.Drop? || step.Forget? || step.EndOne?
             || step.Observe? || step.Number? || step.StartEnd?
    ensures Inv(Apply(s, step))
  {
    hide Inv, Apply;
    match step
    case BeginStep(k, id, cap, payload, world) => BeginKeeps(s, k, id, cap, payload, world);
    case Bind(k, id) => BindKeeps(s, k, id);
    case Append(k, id, kind, payload) => AppendKeeps(s, k, id, kind, payload);
    case Drop(k) => DropKeeps(s, k);
    case Forget(k, id, counted) => ForgetKeeps(s, k, id, counted);
    case EndOne(k, id) => EndOneKeeps(s, k, id);
    case Observe(k) => ObserveKeeps(s, k);
    case Number(k, call, id, payload) => NumberKeeps(s, k, call, id, payload);
    case StartEnd(k) => StartEndKeeps(s, k);
  }

  /** Every section of every object keeps the invariant. */
  lemma StepKeeps(s: State, step: Step)
    requires Inv(s) && Enabled(s, step)
    ensures Inv(Apply(s, step))
  {
    hide Inv, ApplyHandOff, ApplyClaim, ApplyAnswer, ApplyGiveUp, ApplySettle, ApplyKeep, ApplyTake, ApplyEndRecorder,
        ApplyAdmit, ApplyRemove;
    match step
    case NewSdk(k, sink) => NewSdkKeeps(s, k, sink);
    case NewRecorder(r, operationId) => NewRecorderKeeps(s, r, NewRecorderState(operationId));
    case Remove(k, call, e) => RemoveKeeps(s, k, call, e);
    case Admit(k, now) => AdmitKeeps(s, k, now);
    case HandOff(k) => HandOffKeeps(s, k);
    case Claim(k) => ClaimKeeps(s, k);
    case Keep(k) => KeepKeeps(s, k);
    case Answer(k, sent) => AnswerKeeps(s, k, sent);
    case GiveUp(k) => GiveUpKeeps(s, k);
    case Check(k) => CheckKeeps(s, k);
    case Settle(k) => SettleKeeps(s, k);
    case Take(r) => TakeKeeps(s, r);
    case ReleaseTaken(cap) => ReleaseKeeps(s, cap);
    case EndRecorder(r) => EndRecorderKeeps(s, r);
    case End(k) => EndKeeps(s, k);
    case PutElsewhere(cap, bytes) => PutElsewhereKeeps(s, cap, bytes);
    case ReleaseElsewhere(cap) => ReleaseKeeps(s, cap);
    case _ => TableStepKeeps(s, step);
  }

  ghost predicate Legal(s: State, steps: seq<Step>)
    decreases |steps|
  {
    steps != [] ==> Enabled(s, steps[0]) && Legal(Apply(s, steps[0]), steps[1..])
  }

  ghost function Run(s: State, steps: seq<Step>): State
    requires Legal(s, steps)
    decreases |steps|
  {
    if steps == [] then s else Run(Apply(s, steps[0]), steps[1..])
  }

  lemma InitOk()
    ensures Inv(Init())
  {
    assert CandidateBytes(map[]) == map[] && GlobalBytes(map[]) == map[];
  }

  /** Whatever the interleaving, every reachable state satisfies the invariant. */
  lemma {:induction false} RunKeeps(s: State, steps: seq<Step>)
    requires Inv(s) && Legal(s, steps)
    ensures Inv(Run(s, steps))
    decreases |steps|
  {
    hide Inv, Apply, Enabled;
    if steps != [] {
      StepKeeps(s, steps[0]);
      RunKeeps(Apply(s, steps[0]), steps[1..]);
    }
  }

  ghost predicate Reachable(s: State) {
    exists steps :: Legal(Init(), steps) && s == Run(Init(), steps)
  }

  lemma ReachableInv(s: State)
    requires Reachable(s)
    ensures Inv(s)
  {
    hide Inv, Apply, Enabled;
    InitOk();
    var steps :| Legal(Init(), steps) && s == Run(Init(), steps);
    RunKeeps(Init(), steps);
  }
}
