// Uploading a sealed candidate: the server announces missing objects page by page, each object is sent
// with a bounded number of attempts, and the commit must be about this candidate.

module Upload {
  import opened Arith
  import opened Options

  type Digest = int

  const PAGE_LIMIT: nat := 100
  const MAX_ATTEMPTS: nat := 5
  const BATCH: nat := 8

  datatype Page = Page(objects: seq<Digest>, more: bool)

  /** One answer to `upload_object`. */
  datatype Attempt = Accepted | Retryable | Fatal

  /**
   * What the server and the disk answer: page 0 comes with the start, page i with the i-th call of
   * `missing`; `expired` is the delivery deadline at the start of a page, never in `upload`.
   */
  datatype World = World(
    pages: nat -> Option<Page>,
    expired: nat -> bool,
    readable: Digest -> bool,
    attempt: (Digest, nat) -> Attempt)

  function CeilDiv(n: nat, d: nat): nat
    requires d > 0
  {
    (n + d - 1) / d
  }

  function MaximumPages(ciphertext: set<Digest>): nat {
    CeilDiv(|ciphertext|, PAGE_LIMIT) + 1
  }

  // ---- one object --------------------------------------------------------------------------------------

  /** The first attempt that is not retryable accepts the object, within the limit. */
  predicate Delivers(w: World, d: Digest, attempts: nat) {
    && 1 <= attempts <= MAX_ATTEMPTS && w.readable(d)
    && exists j :: 0 <= j < attempts && w.attempt(d, j).Accepted?
                  && forall i :: 0 <= i < j ==> w.attempt(d, i).Retryable?
  }

  /** `upload_with_bound`: tries until the object is accepted, refused for good, or the attempts run out. */
  method UploadWithBound(w: World, d: Digest, attempts: nat) returns (ok: bool, ghost tries: nat)
    requires w.readable(d)
    ensures ok <==> Delivers(w, d, attempts)
    ensures tries <= MAX_ATTEMPTS
    ensures ok ==> tries >= 1 && w.attempt(d, tries - 1).Accepted?
    ensures forall i :: 0 <= i < tries - 1 ==> w.attempt(d, i).Retryable?
  {
    tries := 0;
    if attempts == 0 || attempts > MAX_ATTEMPTS {
      return false, 0;
    }
    for k := 0 to attempts
      invariant tries == k && forall i :: 0 <= i < k ==> w.attempt(d, i).Retryable?
    {
      tries := k + 1;
      match w.attempt(d, k) {
        case Accepted => return true, tries;
        case Fatal => return false, tries;
        case Retryable =>
      }
    }
    ok := false;
  }

  method UploadMissingObject(w: World, d: Digest, attempts: nat) returns (ok: bool, ghost tries: nat)
    ensures ok <==> Delivers(w, d, attempts)
    ensures tries <= MAX_ATTEMPTS
  {
    if !w.readable(d) {
      return false, 0;
    }
    ok, tries := UploadWithBound(w, d, attempts);
  }

  // ---- one page ----------------------------------------------------------------------------------------

  function Members(s: seq<Digest>): set<Digest> {
    set d | d in s
  }

  predicate NoRepeats(s: seq<Digest>) {
    forall i, j :: 0 <= i < j < |s| ==> s[i] != s[j]
  }

  /** A page may be uploaded: not too long, only this candidate's objects, none announced before. */
  predicate PageOk(ciphertext: set<Digest>, seen: set<Digest>, objects: seq<Digest>) {
    && |objects| <= PAGE_LIMIT && NoRepeats(objects)
    && forall i :: 0 <= i < |objects| ==> objects[i] in ciphertext && objects[i] !in seen
  }

  method AdmitPage(ciphertext: set<Digest>, seen: set<Digest>, objects: seq<Digest>)
    returns (ok: bool, seen': set<Digest>)
    ensures ok <==> PageOk(ciphertext, seen, objects)
    ensures ok ==> seen' == seen + Members(objects)
  {
    seen' := seen;
    if |objects| > PAGE_LIMIT {
      return false, seen';
    }
    for k := 0 to |objects|
      invariant PageOk(ciphertext, seen, objects[..k])
      invariant seen' == seen + Members(objects[..k])
    {
      if objects[k] in seen' || objects[k] !in ciphertext {
        if objects[k] in seen' && objects[k] !in seen {
          var j :| 0 <= j < k && objects[j] == objects[k];
        }
        assert !PageOk(ciphertext, seen, objects);
        return false, seen';
      }
      seen' := seen' + {objects[k]};
      assert objects[..k + 1] == objects[..k] + [objects[k]];
    }
    assert objects[..|objects|] == objects;
    ok := true;
  }

  /** The first object that is not delivered. */
  predicate IsFirstFailure(w: World, objects: seq<Digest>, attempts: nat, f: int) {
    0 <= f < |objects| && !Delivers(w, objects[f], attempts) && forall i :: 0 <= i < f ==>
          Delivers(w, objects[i], attempts)
  }

  /**
   * Batches of eight; every object of a batch is tried, and one failure fails the page. The objects tried
   * are those up to the end of the batch of the first failure.
   */
  method UploadPage(w: World, objects: seq<Digest>, attempts: nat) returns (ok: bool, ghost tried: seq<Digest>)
    ensures ok <==> forall i :: 0 <= i < |objects| ==> Delivers(w, objects[i], attempts)
    ensures ok ==> tried == objects
    ensures !ok ==> exists f :: IsFirstFailure(w, objects, attempts, f)
                                && tried == objects[..Min(|objects|, BATCH * (f / BATCH + 1))]
  {
    hide Delivers;
    var start := 0;
    tried := [];
    while start < |objects|
      invariant 0 <= start <= |objects| && (start < |objects| ==> start % BATCH == 0) && tried == objects[..start]
      invariant forall i :: 0 <= i < start ==> Delivers(w, objects[i], attempts)
    {
      var end := start + Min(BATCH, |objects| - start);
      var failed := false;
      ghost var first := 0;
      for k := start to end
        invariant tried == objects[..k]
        invariant if failed then start <= first < k && IsFirstFailure(w, objects, attempts, first)
                  else forall i :: 0 <= i < k ==> Delivers(w, objects[i], attempts)
      {
        var delivered, tries := UploadMissingObject(w, objects[k], attempts);
        tried := tried + [objects[k]];
        if !delivered {
          first := if failed then first else k;
          failed := true;
        }
      }
      if failed {
        assert end == Min(|objects|, BATCH * (first / BATCH + 1));
        return false, tried;
      }
      start := end;
    }
    ok := true;
  }

  // ---- all pages ---------------------------------------------------------------------------------------

  /** The digests announced on the first `m` pages, in order. */
  function Announced(w: World, m: nat): seq<Digest> {
    if m == 0 then [] else Announced(w, m - 1) + (match w.pages(m - 1) case Some(p) => p.objects case None => [])
  }

  /** The server's first `m` pages can all be processed, and the m-th is the last one. */
  ghost predicate CompleteAfter(w: World, ciphertext: set<Digest>, attempts: nat, m: nat) {
    && 1 <= m <= MaximumPages(ciphertext)
    && (forall i :: 0 <= i < m ==> PageGood(w, i) && (w.pages(i).value.more <==> i < m - 1))
    && NoRepeats(Announced(w, m))
    && forall d :: d in Announced(w, m) ==> d in ciphertext && Delivers(w, d, attempts)
  }

  predicate PageGood(w: World, i: nat) {
    !w.expired(i) && w.pages(i).Some? && |w.pages(i).value.objects| <= PAGE_LIMIT
  }

  /** Everything before page `m` was processed and more pages follow. */
  ghost predicate Progress(w: World, ciphertext: set<Digest>, attempts: nat, m: nat) {
    && (forall i :: 0 <= i < m ==> PageGood(w, i) && w.pages(i).value.more)
    && NoRepeats(Announced(w, m))
    && forall d :: d in Announced(w, m) ==> d in ciphertext && Delivers(w, d, attempts)
  }

  lemma NoRepeatsJoin(a: seq<Digest>, b: seq<Digest>)
    ensures NoRepeats(a + b) <==> NoRepeats(a) && NoRepeats(b) && forall j :: 0 <= j < |b| ==> b[j] !in a
  {
    var s := a + b;
    if NoRepeats(s) {
      forall i, j | 0 <= i < j < |a| ensures a[i] != a[j] { assert s[i] != s[j]; }
      forall i, j | 0 <= i < j < |b| ensures b[i] != b[j] { assert s[|a| + i] != s[|a| + j]; }
      forall j | 0 <= j < |b| ensures b[j] !in a {
        forall i | 0 <= i < |a| ensures a[i] != b[j] { assert s[i] != s[|a| + j]; }
      }
    }
  }

  /** A run that is complete after `m` pages has made progress through all earlier ones. */
  lemma {:induction false} EarlierPages(w: World, m: nat, k: nat)
    requires k <= m
    ensures Announced(w, k) <= Announced(w, m)
    decreases m - k
  {
    if k < m {
      EarlierPages(w, m - 1, k);
    }
  }

  /** An earlier part of the announcement inherits everything. */
  lemma Inherits(w: World, ciphertext: set<Digest>, attempts: nat, m: nat, k: nat)
    requires k <= m && NoRepeats(Announced(w, m))
    requires forall d :: d in Announced(w, m) ==> d in ciphertext && Delivers(w, d, attempts)
    ensures NoRepeats(Announced(w, k)) && forall d :: d in Announced(w, k) ==>
              d in ciphertext && Delivers(w, d, attempts)
  {
    hide Delivers, Announced, NoRepeats;
    EarlierPages(w, m, k);
    Prefix(Announced(w, k), Announced(w, m));
  }

  lemma CompleteImpliesProgress(w: World, ciphertext: set<Digest>, attempts: nat, m: nat, k: nat)
    requires CompleteAfter(w, ciphertext, attempts, m) && k < m
    ensures Progress(w, ciphertext, attempts, k) && PageGood(w, k)
    ensures PageOk(ciphertext, Members(Announced(w, k)), w.pages(k).value.objects)
    ensures forall d :: d in w.pages(k).value.objects ==> Delivers(w, d, attempts)
  {
    hide Delivers, NoRepeats, Members, Announced;
    Inherits(w, ciphertext, attempts, m, k);
    Inherits(w, ciphertext, attempts, m, k + 1);
    assert PageGood(w, k);
    LastPage(w, ciphertext, attempts, k);
  }

  /** What holds of the announcement including page `k` holds of page `k` beside the earlier ones. */
  lemma LastPage(w: World, ciphertext: set<Digest>, attempts: nat, k: nat)
    requires PageGood(w, k) && NoRepeats(Announced(w, k + 1))
    requires forall d :: d in Announced(w, k + 1) ==> d in ciphertext && Delivers(w, d, attempts)
    ensures PageOk(ciphertext, Members(Announced(w, k)), w.pages(k).value.objects)
    ensures forall d :: d in w.pages(k).value.objects ==> Delivers(w, d, attempts)
  {
    hide Delivers;
    var before, objects := Announced(w, k), w.pages(k).value.objects;
    assert Announced(w, k + 1) == before + objects;
    NoRepeatsJoin(before, objects);
    forall d | d in objects ensures d in Announced(w, k + 1) {
      assert d in before + objects;
    }
    forall i | 0 <= i < |objects| ensures objects[i] in ciphertext && objects[i] !in Members(before) {
      assert objects[i] in objects;
    }
  }

  lemma Prefix(a: seq<Digest>, b: seq<Digest>)
    requires a <= b && NoRepeats(b)
    ensures NoRepeats(a) && forall d :: d in a ==> d in b
  {
    forall i, j | 0 <= i < j < |a| ensures a[i] != a[j] { assert a[i] == b[i] && a[j] == b[j]; }
    forall d | d in a ensures d in b {
      var i :| 0 <= i < |a| && a[i] == d;
      assert b[i] == d;
    }
  }

  /**
   * `upload_missing`: at most ceil(n/100)+1 pages; it succeeds exactly when the server's pages come to an
   * end within that bound, announce only this candidate's objects, each once, and every one is delivered.
   */
  method UploadMissing(w: World, ciphertext: set<Digest>, attempts: nat) returns (ok: bool, ghost pages: nat)
    requires w.pages(0).Some?
    ensures ok <==> exists m: nat :: CompleteAfter(w, ciphertext, attempts, m)
    ensures pages <= MaximumPages(ciphertext)
    ensures ok ==> CompleteAfter(w, ciphertext, attempts, pages)
  {
    hide Delivers, CompleteAfter, Progress, PageOk;
    var seen: set<Digest> := {};
    pages := 0;
    StartOk(w, ciphertext, attempts);
    for k := 0 to MaximumPages(ciphertext)
      invariant pages == k && w.pages(k).Some?
      invariant Progress(w, ciphertext, attempts, k) && seen == Members(Announced(w, k))
    {
      var page := w.pages(k).value;
      if w.expired(k) {
        Stuck(w, ciphertext, attempts, k);
        return false, k;
      }
      var admitted;
      ghost var before := seen;
      admitted, seen := AdmitPage(ciphertext, seen, page.objects);
      if !admitted {
        Stuck(w, ciphertext, attempts, k);
        return false, k + 1;
      }
      var uploaded, tried := UploadPage(w, page.objects, attempts);
      if !uploaded {
        Stuck(w, ciphertext, attempts, k);
        return false, k + 1;
      }
      pages := k + 1;
      PageDone(w, ciphertext, attempts, k);
      if !page.more {
        Finished(w, ciphertext, attempts, k);
        return true, pages;
      }
      Continues(w, ciphertext, attempts, k);
      if w.pages(k + 1).None? {
        Stuck(w, ciphertext, attempts, k + 1);
        return false, pages;
      }
    }
    TooMany(w, ciphertext, attempts);
    ok := false;
  }

  lemma StartOk(w: World, ciphertext: set<Digest>, attempts: nat)
    ensures Progress(w, ciphertext, attempts, 0)
  {
  }

  /** Where a page cannot be processed, no number of pages completes the upload. */
  lemma Stuck(w: World, ciphertext: set<Digest>, attempts: nat, k: nat)
    requires Progress(w, ciphertext, attempts, k)
    requires w.expired(k) || w.pages(k).None?
          || !PageOk(ciphertext, Members(Announced(w, k)), w.pages(k).value.objects)
          || exists i :: 0 <= i < |w.pages(k).value.objects| && !Delivers(w, w.pages(k).value.objects[i], attempts)
    ensures !exists m: nat :: CompleteAfter(w, ciphertext, attempts, m)
  {
    hide Delivers, PageOk, CompleteAfter, Progress;
    forall m: nat ensures !CompleteAfter(w, ciphertext, attempts, m) {
      if CompleteAfter(w, ciphertext, attempts, m) {
        Passes(w, ciphertext, attempts, m, k);
      }
    }
  }

  /** A complete upload passes every page that progress has reached. */
  lemma Passes(w: World, ciphertext: set<Digest>, attempts: nat, m: nat, k: nat)
    requires CompleteAfter(w, ciphertext, attempts, m) && Progress(w, ciphertext, attempts, k)
    ensures PageGood(w, k) && PageOk(ciphertext, Members(Announced(w, k)), w.pages(k).value.objects)
    ensures forall d :: d in w.pages(k).value.objects ==> Delivers(w, d, attempts)
  {
    hide Delivers, PageOk;
    assert m >= 1 && PageGood(w, m - 1) && !w.pages(m - 1).value.more;
    assert k < m;
    CompleteImpliesProgress(w, ciphertext, attempts, m, k);
  }

  /** One more page is done. */
  lemma PageDone(w: World, ciphertext: set<Digest>, attempts: nat, k: nat)
    requires Progress(w, ciphertext, attempts, k) && w.pages(k).Some? && !w.expired(k)
    requires PageOk(ciphertext, Members(Announced(w, k)), w.pages(k).value.objects)
    requires forall i :: 0 <= i < |w.pages(k).value.objects| ==> Delivers(w, w.pages(k).value.objects[i], attempts)
    ensures PageGood(w, k)
    ensures Members(Announced(w, k + 1)) == Members(Announced(w, k)) + Members(w.pages(k).value.objects)
    ensures NoRepeats(Announced(w, k + 1))
    ensures forall d :: d in Announced(w, k + 1) ==> d in ciphertext && Delivers(w, d, attempts)
  {
    hide Delivers;
    NoRepeatsJoin(Announced(w, k), w.pages(k).value.objects);
  }

  lemma Finished(w: World, ciphertext: set<Digest>, attempts: nat, k: nat)
    requires Progress(w, ciphertext, attempts, k) && k < MaximumPages(ciphertext) && PageGood(w, k)
             && !w.pages(k).value.more
    requires NoRepeats(Announced(w, k + 1)) && forall d :: d in Announced(w, k + 1) ==>
               d in ciphertext && Delivers(w, d, attempts)
    ensures CompleteAfter(w, ciphertext, attempts, k + 1)
  {
    hide Delivers;
  }

  lemma Continues(w: World, ciphertext: set<Digest>, attempts: nat, k: nat)
    requires Progress(w, ciphertext, attempts, k) && PageGood(w, k) && w.pages(k).value.more
    requires NoRepeats(Announced(w, k + 1)) && forall d :: d in Announced(w, k + 1) ==>
               d in ciphertext && Delivers(w, d, attempts)
    ensures Progress(w, ciphertext, attempts, k + 1)
  {
    hide Delivers;
  }

  lemma TooMany(w: World, ciphertext: set<Digest>, attempts: nat)
    requires Progress(w, ciphertext, attempts, MaximumPages(ciphertext))
    ensures !exists m: nat :: CompleteAfter(w, ciphertext, attempts, m)
  {
    hide Delivers;
    forall m: nat ensures !CompleteAfter(w, ciphertext, attempts, m) {
      if 1 <= m <= MaximumPages(ciphertext) {
        assert PageGood(w, m - 1) && w.pages(m - 1).value.more;
      }
    }
  }

  // ---- an honest server ----------------------------------------------------------------------------

  /** All pages but the last are full, and together they announce distinct objects of the candidate. */
  ghost predicate Honest(w: World, ciphertext: set<Digest>, attempts: nat, m: nat) {
    && m >= 1
    && (forall i :: 0 <= i < m ==> PageGood(w, i) && (w.pages(i).value.more <==> i < m - 1))
    && (forall i :: 0 <= i < m - 1 ==> |w.pages(i).value.objects| == PAGE_LIMIT)
    && NoRepeats(Announced(w, m))
    && forall d :: d in Announced(w, m) ==> d in ciphertext && Delivers(w, d, attempts)
  }

  lemma {:induction false} FullPages(w: World, m: nat)
    requires forall i :: 0 <= i < m ==> w.pages(i).Some? && |w.pages(i).value.objects| == PAGE_LIMIT
    ensures |Announced(w, m)| == PAGE_LIMIT * m
    decreases m
  {
    if m > 0 {
      FullPages(w, m - 1);
    }
  }

  lemma {:induction false} DistinctFits(s: seq<Digest>, all: set<Digest>)
    requires NoRepeats(s) && forall d :: d in s ==> d in all
    ensures |s| <= |all|
    decreases |s|
  {
    if s != [] {
      var last := s[|s| - 1];
      var init := s[..|s| - 1];
      forall d | d in init ensures d in all - {last} {
        var i :| 0 <= i < |init| && init[i] == d;
        assert s[i] != s[|s| - 1];
      }
      forall i, j | 0 <= i < j < |init| ensures init[i] != init[j] { assert s[i] != s[j]; }
      DistinctFits(init, all - {last});
      assert last in s;
    }
  }

  /** However many objects are missing, an honest server's upload completes within the page bound. */
  lemma HonestCompletes(w: World, ciphertext: set<Digest>, attempts: nat, m: nat)
    requires Honest(w, ciphertext, attempts, m)
    ensures CompleteAfter(w, ciphertext, attempts, m)
  {
    hide Delivers;
    FullPages(w, m - 1);
    EarlierPages(w, m, m - 1);
    Prefix(Announced(w, m - 1), Announced(w, m));
    DistinctFits(Announced(w, m - 1), ciphertext);
    assert PAGE_LIMIT * (m - 1) <= |ciphertext|;
  }

  /** A complete upload never announces more than the candidate's objects. */
  lemma AnnouncesNoMore(w: World, ciphertext: set<Digest>, attempts: nat, m: nat)
    requires CompleteAfter(w, ciphertext, attempts, m)
    ensures |Announced(w, m)| <= |ciphertext|
  {
    DistinctFits(Announced(w, m), ciphertext);
  }

  /** The objects of page `i`, when all pages are full as long as there are objects. */
  function PageOf(objects: seq<Digest>, i: nat): seq<Digest> {
    objects[Min(PAGE_LIMIT * i, |objects|)..Min(PAGE_LIMIT * (i + 1), |objects|)]
  }

  function Listing(objects: seq<Digest>, pages: nat): World {
    World((i: nat) => Some(Page(PageOf(objects, i), i + 1 < pages)), _ => false, _ => true, (_, _) => Accepted)
  }

  lemma {:induction false} ListingAnnounces(objects: seq<Digest>, pages: nat, m: nat)
    ensures Announced(Listing(objects, pages), m) == objects[..Min(PAGE_LIMIT * m, |objects|)]
    decreases m
  {
    if m > 0 {
      ListingAnnounces(objects, pages, m - 1);
    }
  }

  lemma {:induction false} Listed(all: set<Digest>) returns (s: seq<Digest>)
    ensures NoRepeats(s) && |s| == |all| && forall d :: d in s <==> d in all
    decreases |all|
  {
    s := [];
    if all != {} {
      var d := AnyOf(all);
      var rest := Listed(all - {d});
      s := rest + [d];
      NoRepeatsJoin(rest, [d]);
    }
  }

  lemma AnyOf<T>(all: set<T>) returns (x: T)
    requires all != {}
    ensures x in all
  {
    x :| x in all;
  }

  /** The page bound is tight: whatever the number of objects, some server's upload completes on the very last page. */
  lemma BoundIsReached(ciphertext: set<Digest>, attempts: nat) returns (w: World)
    requires 1 <= attempts <= MAX_ATTEMPTS
    ensures CompleteAfter(w, ciphertext, attempts, MaximumPages(ciphertext))
    ensures forall m: nat :: CompleteAfter(w, ciphertext, attempts, m) ==> m == MaximumPages(ciphertext)
  {
    var objects := Listed(ciphertext);
    var pages := MaximumPages(ciphertext);
    w := Listing(objects, pages);
    ListingAnnounces(objects, pages, pages);
    assert objects[..|objects|] == objects;
    forall d | d in Announced(w, pages) ensures d in ciphertext && Delivers(w, d, attempts) {
      assert w.attempt(d, 0).Accepted?;
    }
    forall i | 0 <= i < pages ensures PageGood(w, i) && (w.pages(i).value.more <==> i < pages - 1) {
    }
    forall m: nat | CompleteAfter(w, ciphertext, attempts, m) ensures m == pages {
      assert w.pages(m - 1).value.more <==> m - 1 < m - 1;
    }
  }

  // ---- the whole upload ------------------------------------------------------------------------------

  datatype UploadState = Open | Uploading | Committed | Other

  /** What the commit must be about. */
  datatype Identity = Identity(capture: int, candidate: Digest, key: int, encrypted: Digest)
  datatype Commit = Commit(identity: Identity, cloudProtected: bool)

  datatype Call = CancelCall | CommitCall

  /** Whether time remains for the cancel, for the commit, and after it; in `upload` it always does. */
  datatype Remaining = Remaining(cancel: bool, commit: bool, after: bool)

  method Upload(w: World, state: UploadState, ciphertext: set<Digest>, attempts: nat, identity: Identity,
                answer: Option<Commit>, time: Remaining)
    returns (result: Option<Commit>, calls: seq<Call>)
    requires w.pages(0).Some?
    ensures state.Committed? ==>
              calls == (if time.commit then [CommitCall] else []) && result == (if time.commit then answer else None)
    ensures state.Other? ==> calls == [] && result.None?
    ensures state.Open? || state.Uploading? ==>
              var complete := exists m: nat :: CompleteAfter(w, ciphertext, attempts, m);
              && (CommitCall in calls <==> complete && time.commit)
              && (CancelCall in calls <==> time.cancel && (!complete || (time.commit && answer.None?)))
              && (complete ==> calls <= [CommitCall, CancelCall]) && |calls| <= 2
              && result == if complete && time.commit && time.after && answer == Some(Commit(identity, true)) then
                   answer else None
  {
    if state.Committed? {
      if !time.commit {
        return None, [];
      }
      return answer, [CommitCall];
    }
    if !state.Open? && !state.Uploading? {
      return None, [];
    }
    var cancelled := if time.cancel then [CancelCall] else [];
    var ok, pages := UploadMissing(w, ciphertext, attempts);
    if !ok {
      return None, cancelled;
    }
    if !time.commit {
      return None, [];
    }
    if answer.None? {
      return None, [CommitCall] + cancelled;
    }
    if !time.after {
      return None, [CommitCall];
    }
    var commit := answer.value;
    if commit.identity.capture != identity.capture || commit.identity.candidate != identity.candidate
       || commit.identity.key != identity.key
       || commit.identity.encrypted != identity.encrypted || !commit.cloudProtected {
      return None, [CommitCall];
    }
    return answer, [CommitCall];
  }

  /**
   * Outside the Committed shortcut a commit is only asked for after a complete upload, and an accepted one is
   * this candidate's.
   */
  method CommitIsOurs(w: World, state: UploadState, ciphertext: set<Digest>, attempts: nat, identity: Identity,
                      answer: Option<Commit>, time: Remaining)
    returns (result: Option<Commit>, calls: seq<Call>)
    requires w.pages(0).Some? && !state.Committed?
    ensures CommitCall in calls ==> exists m: nat :: CompleteAfter(w, ciphertext, attempts, m)
    ensures result.Some? ==> result.value == Commit(identity, true) && CommitCall in calls
  {
    result, calls := Upload(w, state, ciphertext, attempts, identity, answer, time);
  }

  /** The shortcut: a candidate that the server calls committed is accepted without the identity check. */
  method CommittedShortcut(w: World, ciphertext: set<Digest>, attempts: nat, identity: Identity, foreign: Commit)
    returns (result: Option<Commit>)
    requires w.pages(0).Some? && foreign.identity != identity
    ensures result == Some(foreign)
  {
    var calls;
    result, calls := Upload(w, Committed, ciphertext, attempts, identity, Some(foreign), Remaining(true, true, true));
  }
}
