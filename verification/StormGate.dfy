// The failure-storm gate of the process-wide ledger: a token bucket (4 tokens, two
// milli-tokens refilled per millisecond) in front of a map of recently admitted identities.

module StormGate {
  import opened Arith

  const SUPPRESSION_MS: nat := 60_000
  const TOKENS_MILLI_CAPACITY: nat := 4_000
  const MAX_IDENTITIES: nat := 256

  datatype Decision = Admitted | SuppressedExact | SuppressedHighCardinality

  datatype Entry = Entry(admittedAt: nat, observedAt: nat, suppressed: nat)

  /** One admission: which identity was let through, and when. */
  datatype Admission = Admission(identity: nat, at: nat)

  /** How many admissions of the history happened in the window [from, to]. */
  function CountIn(h: seq<Admission>, from: nat, to: nat): nat {
    if h == [] then 0
    else CountIn(h[..|h| - 1], from, to) + if from <= h[|h| - 1].at <= to then 1 else 0
  }

  ghost predicate TimesOrdered(h: seq<Admission>, now: nat) {
    && (forall i :: 0 <= i < |h| ==> h[i].at <= now)
    && (forall i, j :: 0 <= i < j < |h| ==> h[i].at <= h[j].at)
  }

  /** The rate law: in any window at most 4 admissions plus one per 500 ms. */
  ghost predicate RateLaw(h: seq<Admission>) {
    forall s: nat, t: nat | s <= t :: 1000 * CountIn(h, s, t) <= TOKENS_MILLI_CAPACITY + 2 * (t - s)
  }

  /** Two admissions of one identity are at least a suppression period apart. */
  ghost predicate Spaced(h: seq<Admission>) {
    forall i, j :: 0 <= i < j < |h| && h[i].identity == h[j].identity ==> h[j].at - h[i].at >= SUPPRESSION_MS
  }

  /** The identity was admitted less than a suppression period before `now`. */
  ghost predicate RecentlyAdmitted(h: seq<Admission>, identity: nat, now: nat) {
    exists i :: 0 <= i < |h| && h[i].identity == identity && now - h[i].at < SUPPRESSION_MS
  }

  /** One more admission at `now` would still satisfy the rate law in every window ending now. */
  ghost predicate RateAllows(h: seq<Admission>, now: nat) {
    forall s: nat | s <= now :: 1000 * (CountIn(h, s, now) + 1) <= TOKENS_MILLI_CAPACITY + 2 * (now - s)
  }

  /** What the gate admits: no admission of this identity in the last minute, and room in every window. */
  ghost predicate Admits(h: seq<Admission>, identity: nat, now: nat) {
    !RecentlyAdmitted(h, identity, now) && RateAllows(h, now)
  }

  // ---- facts about the count -------------------------------------------------------------

  lemma {:induction false} CountAppend(h: seq<Admission>, a: Admission, from: nat, to: nat)
    ensures CountIn(h + [a], from, to) == CountIn(h, from, to) + if from <= a.at <= to then 1 else 0
  {
    assert (h + [a])[..|h + [a]| - 1] == h;
  }

  /** Nothing before `from` or after the last time is counted. */
  lemma {:induction false} CountTail(h: seq<Admission>, from: nat, to: nat, to': nat)
    requires TimesOrdered(h, to) && to <= to'
    ensures CountIn(h, from, to') == CountIn(h, from, to)
    ensures from > to ==> CountIn(h, from, to') == 0
  {
    if h != [] {
      assert TimesOrdered(h[..|h| - 1], to);
      CountTail(h[..|h| - 1], from, to, to');
    }
  }

  /** A history restricted to its first admissions, all of them up to time `to`. */
  lemma {:induction false} CountPrefix(h: seq<Admission>, s: nat, t: nat, now: nat)
    requires TimesOrdered(h, now) && s <= t <= now
    ensures exists k :: 0 <= k <= |h| && TimesOrdered(h[..k], t) && CountIn(h, s, t) == CountIn(h[..k], s, t)
  {
    if h == [] || h[|h| - 1].at <= t {
      assert h[..|h|] == h;
    } else {
      var p := h[..|h| - 1];
      assert TimesOrdered(p, now);
      CountPrefix(p, s, t, now);
      var k :| 0 <= k <= |p| && TimesOrdered(p[..k], t) && CountIn(p, s, t) == CountIn(p[..k], s, t);
      assert h[..k] == p[..k];
    }
  }

  /** Distinct identities, each admitted inside the window, are counted separately. */
  lemma {:induction false} CountCoversIdentities(h: seq<Admission>, ids: set<nat>, from: nat, to: nat)
    requires forall x :: x in ids ==> exists i :: 0 <= i < |h| && h[i].identity == x && from <= h[i].at <= to
    ensures |ids| <= CountIn(h, from, to)
  {
    if h == [] {
      assert ids == {};
    } else {
      var p, last := h[..|h| - 1], h[|h| - 1];
      var rest := if from <= last.at <= to then ids - {last.identity} else ids;
      forall x | x in rest
        ensures exists i :: 0 <= i < |p| && p[i].identity == x && from <= p[i].at <= to
      {
        var i :| 0 <= i < |h| && h[i].identity == x && from <= h[i].at <= to;
        assert i < |p| && p[i] == h[i];
      }
      CountCoversIdentities(p, rest, from, to);
      assert ids <= rest + {last.identity};
      if from <= last.at <= to {
        assert ids - {last.identity} == rest;
        assert |ids| <= |rest| + 1;
      }
    }
  }

  // ---- the token bucket against the history ----------------------------------------------

  /** The bucket holds exactly what the tightest window ending at `now` leaves over. */
  ghost predicate BucketExact(h: seq<Admission>, tokens: nat, now: nat) {
    && (forall s: nat | s <= now :: 1000 * CountIn(h, s, now) + tokens <= TOKENS_MILLI_CAPACITY + 2 * (now - s))
    && (exists s: nat :: s <= now && 1000 * CountIn(h, s, now) + tokens == TOKENS_MILLI_CAPACITY + 2 * (now - s))
  }

  function Refilled(tokens: nat, last: nat, now: nat): nat {
    Min(SatAdd(tokens, SatMul(SatSub(now, last), 2)), TOKENS_MILLI_CAPACITY)
  }

  /** Refilling keeps the bucket equal to the tightest window's slack. */
  lemma RefillKeepsExact(h: seq<Admission>, tokens: nat, last: nat, now: nat)
    requires TimesOrdered(h, last) && last <= now <= U64_MAX
    requires BucketExact(h, tokens, last)
    ensures BucketExact(h, Refilled(tokens, last, now), now)
  {
    var tokens' := Refilled(tokens, last, now);
    forall s: nat | s <= now
      ensures 1000 * CountIn(h, s, now) + tokens' <= TOKENS_MILLI_CAPACITY + 2 * (now - s)
    {
      CountTail(h, s, last, now);
    }
    if tokens + 2 * (now - last) <= TOKENS_MILLI_CAPACITY {
      var s: nat :| s <= last && 1000 * CountIn(h, s, last) + tokens == TOKENS_MILLI_CAPACITY + 2 * (last - s);
      CountTail(h, s, last, now);
      assert 1000 * CountIn(h, s, now) + tokens' == TOKENS_MILLI_CAPACITY + 2 * (now - s);
    } else {
      CountTail(h, last, last, last);
      assert 1000 * CountIn(h, last, last) + tokens <= TOKENS_MILLI_CAPACITY;
      CountTail(h, now, last, now);
      assert 1000 * CountIn(h, now, now) + tokens' == TOKENS_MILLI_CAPACITY + 2 * (now - now);
    }
  }

  /** The bucket has a whole token exactly when the rate law leaves room for one admission. */
  lemma TokenIffRateAllows(h: seq<Admission>, tokens: nat, now: nat)
    requires BucketExact(h, tokens, now)
    ensures tokens >= 1000 <==> RateAllows(h, now)
  {
    if RateAllows(h, now) {
      var s: nat :| s <= now && 1000 * CountIn(h, s, now) + tokens == TOKENS_MILLI_CAPACITY + 2 * (now - s);
      assert 1000 * (CountIn(h, s, now) + 1) <= TOKENS_MILLI_CAPACITY + 2 * (now - s);
    }
  }

  lemma SpendKeepsExact(h: seq<Admission>, tokens: nat, identity: nat, now: nat)
    requires TimesOrdered(h, now) && BucketExact(h, tokens, now) && tokens >= 1000
    ensures BucketExact(h + [Admission(identity, now)], tokens - 1000, now)
  {
    var h' := h + [Admission(identity, now)];
    forall s: nat | s <= now
      ensures CountIn(h', s, now) == CountIn(h, s, now) + 1
    {
      CountAppend(h, Admission(identity, now), s, now);
    }
    var s: nat :| s <= now && 1000 * CountIn(h, s, now) + tokens == TOKENS_MILLI_CAPACITY + 2 * (now - s);
    assert 1000 * CountIn(h', s, now) + (tokens - 1000) == TOKENS_MILLI_CAPACITY + 2 * (now - s);
  }

  /** The live map: one entry per identity admitted within the last suppression period. */
  ghost predicate MapExact(admitted: map<nat, Entry>, h: seq<Admission>, now: nat) {
    && (forall x :: x in admitted <==> RecentlyAdmitted(h, x, now))
    && (forall x ::
          x in admitted ==> Admission(x, admitted[x].admittedAt) in h && now - admitted[x].admittedAt < SUPPRESSION_MS)
  }

  /** The entries that survive the expiry pass at `now`. */
  function Retained(admitted: map<nat, Entry>, now: nat): map<nat, Entry> {
    map x | x in admitted && SatSub(now, admitted[x].admittedAt) < SUPPRESSION_MS :: admitted[x]
  }

  /** 4000 + 2 * 59_999 milli-tokens buy at most 123 admissions: the map never nears its bound of 256. */
  lemma LiveMapStaysSmall(admitted: map<nat, Entry>, h: seq<Admission>, tokens: nat, now: nat)
    requires TimesOrdered(h, now) && MapExact(admitted, h, now) && BucketExact(h, tokens, now)
    ensures |admitted| <= 123
  {
    var from: nat := SatSub(now, SUPPRESSION_MS - 1);
    forall x | x in admitted.Keys
      ensures exists i :: 0 <= i < |h| && h[i].identity == x && from <= h[i].at <= now
    {
      var i :| 0 <= i < |h| && h[i] == Admission(x, admitted[x].admittedAt);
    }
    CountCoversIdentities(h, admitted.Keys, from, now);
    assert 1000 * CountIn(h, from, now) + tokens <= TOKENS_MILLI_CAPACITY + 2 * (now - from);
    assert |admitted| == |admitted.Keys|;
  }

  /** Adding an admission that the rate allows keeps the law in every window, past and present. */
  lemma AdmissionKeepsRateLaw(h: seq<Admission>, identity: nat, now: nat)
    requires TimesOrdered(h, now) && RateLaw(h) && RateAllows(h, now)
    ensures RateLaw(h + [Admission(identity, now)])
  {
    var a := Admission(identity, now);
    forall s: nat, t: nat | s <= t
      ensures 1000 * CountIn(h + [a], s, t) <= TOKENS_MILLI_CAPACITY + 2 * (t - s)
    {
      CountAppend(h, a, s, t);
      if s <= now <= t {
        CountTail(h, s, now, t);
      }
    }
  }

  /** Dropping the expired entries leaves exactly the recently admitted identities. */
  lemma RetainIsExact(admitted: map<nat, Entry>, h: seq<Admission>, last: nat, now: nat)
    requires TimesOrdered(h, last) && last <= now && MapExact(admitted, h, last) && Spaced(h)
    ensures MapExact(Retained(admitted, now), h, now)
  {
    forall x
      ensures x in Retained(admitted, now) <==> RecentlyAdmitted(h, x, now)
    {
      RetainedIffRecent(admitted, h, last, now, x);
    }
  }

  lemma RetainedIffRecent(admitted: map<nat, Entry>, h: seq<Admission>, last: nat, now: nat, x: nat)
    requires TimesOrdered(h, last) && last <= now && MapExact(admitted, h, last) && Spaced(h)
    ensures x in Retained(admitted, now) <==> RecentlyAdmitted(h, x, now)
  {
    if RecentlyAdmitted(h, x, now) {
      var i :| 0 <= i < |h| && h[i].identity == x && now - h[i].at < SUPPRESSION_MS;
      assert RecentlyAdmitted(h, x, last);
      var j :| 0 <= j < |h| && h[j] == Admission(x, admitted[x].admittedAt);
      assert i == j;
    }
  }

  lemma InsertIsExact(h: seq<Admission>, identity: nat, now: nat)
    requires TimesOrdered(h, now) && Spaced(h) && !RecentlyAdmitted(h, identity, now)
    ensures var h' := h + [Admission(identity, now)];
            && TimesOrdered(h', now) && Spaced(h')
            && (forall x :: RecentlyAdmitted(h', x, now) <==> x == identity || RecentlyAdmitted(h, x, now))
            && (forall a :: a in h ==> a in h')
            && Admission(identity, now) in h'
  {
    var h' := h + [Admission(identity, now)];
    forall x
      ensures RecentlyAdmitted(h', x, now) <==> x == identity || RecentlyAdmitted(h, x, now)
    {
      assert h'[|h|] == Admission(identity, now);
      if RecentlyAdmitted(h, x, now) {
        var i :| 0 <= i < |h| && h[i].identity == x && now - h[i].at < SUPPRESSION_MS;
        assert h'[i].identity == x;
      }
    }
    forall i, j | 0 <= i < j < |h'| && h'[i].identity == h'[j].identity
      ensures h'[j].at - h'[i].at >= SUPPRESSION_MS
    {
    }
  }

  /** What holds between two calls of the gate. */
  ghost predicate GateInv(admitted: map<nat, Entry>, h: seq<Admission>, tokens: nat, now: nat) {
    && now <= U64_MAX
    && TimesOrdered(h, now)
    && BucketExact(h, tokens, now)
    && MapExact(admitted, h, now)
    && RateLaw(h)
    && Spaced(h)
    && |admitted| <= 123
  }

  /** Refilling and expiring up to `now`; the two tests that follow read the history alone. */
  lemma PassTime(admitted: map<nat, Entry>, h: seq<Admission>, tokens: nat, last: nat, now: nat, identity: nat)
    requires GateInv(admitted, h, tokens, last) && last <= now <= U64_MAX
    ensures GateInv(Retained(admitted, now), h, Refilled(tokens, last, now), now)
    ensures |Retained(admitted, now)| <= 123
    ensures identity in Retained(admitted, now) <==> RecentlyAdmitted(h, identity, now)
    ensures Refilled(tokens, last, now) >= 1000 <==> RateAllows(h, now)
  {
    RefillKeepsExact(h, tokens, last, now);
    RetainIsExact(admitted, h, last, now);
    TokenIffRateAllows(h, Refilled(tokens, last, now), now);
    LiveMapStaysSmall(Retained(admitted, now), h, Refilled(tokens, last, now), now);
  }

  lemma Suppress(admitted: map<nat, Entry>, h: seq<Admission>, tokens: nat, now: nat, identity: nat, e: Entry)
    requires GateInv(admitted, h, tokens, now)
    requires identity in admitted && e.admittedAt == admitted[identity].admittedAt
    ensures GateInv(admitted[identity := e], h, tokens, now)
  {
    LiveMapStaysSmall(admitted[identity := e], h, tokens, now);
  }

  lemma AdmitKeeps(admitted: map<nat, Entry>, h: seq<Admission>, tokens: nat, now: nat, identity: nat)
    requires GateInv(admitted, h, tokens, now) && identity !in admitted && tokens >= 1000 && RateAllows(h, now)
    ensures GateInv(admitted[identity := Entry(now, now, 0)], h + [Admission(identity, now)], tokens - 1000, now)
  {
    var admitted', h' := admitted[identity := Entry(now, now, 0)], h + [Admission(identity, now)];
    SpendKeepsExact(h, tokens, identity, now);
    AdmissionKeepsRateLaw(h, identity, now);
    InsertIsExact(h, identity, now);
    LiveMapStaysSmall(admitted', h', tokens - 1000, now);
    hide RateAllows, CountIn;
  }

  class FailureStormGate {
    var admitted: map<nat, Entry>
    var lastRefillMs: nat
    var tokensMilli: nat
    ghost var history: seq<Admission>

    ghost predicate Valid()
      reads this
    {
      GateInv(admitted, history, tokensMilli, lastRefillMs)
    }

    constructor ()
      ensures Valid() && history == [] && lastRefillMs == 0
    {
      admitted, lastRefillMs, tokensMilli, history := map[], 0, TOKENS_MILLI_CAPACITY, [];
      new;
      assert 1000 * CountIn(history, 0, 0) + tokensMilli == TOKENS_MILLI_CAPACITY + 2 * (0 - 0);
    }

    method Refill(nowMs: nat)
      modifies this
      ensures tokensMilli == Refilled(old(tokensMilli), old(lastRefillMs), nowMs) && lastRefillMs == nowMs
      ensures admitted == old(admitted) && history == old(history)
    {
      var elapsedMs := SatSub(nowMs, lastRefillMs);
      tokensMilli := Min(SatAdd(tokensMilli, SatMul(elapsedMs, 2)), TOKENS_MILLI_CAPACITY);
      lastRefillMs := nowMs;
    }

    /** Decide about one failure. The decision depends on the admission history alone. */
    method Admit(identity: nat, nowMs: nat) returns (decision: Decision)
      requires Valid() && lastRefillMs <= nowMs <= U64_MAX
      modifies this
      ensures Valid() && lastRefillMs == nowMs
      ensures decision == SuppressedExact <==> RecentlyAdmitted(old(history), identity, nowMs)
      ensures decision == Admitted <==> Admits(old(history), identity, nowMs)
      ensures history == if decision == Admitted then old(history) + [Admission(identity, nowMs)] else old(history)
      ensures decision == SuppressedExact ==> identity in Retained(old(admitted), nowMs)
      ensures admitted == match decision
                          case Admitted => Retained(old(admitted), nowMs)[identity := Entry(nowMs, nowMs, 0)]
                          case SuppressedHighCardinality => Retained(old(admitted), nowMs)
                          case SuppressedExact =>
                            var e := Retained(old(admitted), nowMs)[identity];
                            Retained(old(admitted), nowMs)[identity := e.(observedAt := nowMs,
                                                                          suppressed := SatAdd(e.suppressed, 1))]
    {
      hide GateInv, Retained, Refilled, RateAllows, RecentlyAdmitted;
      PassTime(admitted, history, tokensMilli, lastRefillMs, nowMs, identity);
      Refill(nowMs);
      admitted := Retained(admitted, nowMs);
      if identity in admitted {
        var entry := admitted[identity].(observedAt := nowMs, suppressed := SatAdd(admitted[identity].suppressed, 1));
        Suppress(admitted, history, tokensMilli, nowMs, identity, entry);
        admitted := admitted[identity := entry];
        return SuppressedExact;
      }
      if tokensMilli < 1000 {
        return SuppressedHighCardinality;
      }
      if |admitted| >= MAX_IDENTITIES {
        // The eviction of the least recently observed identity: no run gets here.
        assert false;
      }
      AdmitKeeps(admitted, history, tokensMilli, nowMs, identity);
      tokensMilli := tokensMilli - 1000;
      admitted := admitted[identity := Entry(nowMs, nowMs, 0)];
      history := history + [Admission(identity, nowMs)];
      return Admitted;
    }
  }
}
