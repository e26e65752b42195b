// Canonical protocol JSON: objects in ordinal key order, 64-bit integers, minimal escaping.

module CanonicalJson {
  import opened Options
  import opened CanonicalText

  type Text = seq<Unit>

  /** A protocol value; an object lists its properties in insertion order. */
  datatype Json =
    | Null
    | Bool(b: bool)
    | Number(text: Text)
    | Str(s: Text)
    | Array(items: seq<Json>)
    | Object(members: seq<Member>)

  datatype Member = Member(key: Text, value: Json)

  datatype Error = UnsupportedType | InvalidNumber

  const COMMA: Byte := 0x2C
  const COLON: Byte := 0x3A
  const LBRACKET: Byte := 0x5B
  const RBRACKET: Byte := 0x5D
  const LBRACE: Byte := 0x7B
  const RBRACE: Byte := 0x7D
  const NULL_TEXT: seq<Byte> := [0x6E, 0x75, 0x6C, 0x6C]
  const TRUE_TEXT: seq<Byte> := [0x74, 0x72, 0x75, 0x65]
  const FALSE_TEXT: seq<Byte> := [0x66, 0x61, 0x6C, 0x73, 0x65]

  // ---- ordinal order -------------------------------------------------------------------------------

  /** `StringComparer.Ordinal`: by code unit, a prefix first. */
  predicate Less(a: Text, b: Text)
    decreases |a|
  {
    if b == [] then false
    else if a == [] then true
    else if a[0] != b[0] then a[0] < b[0]
    else Less(a[1..], b[1..])
  }

  lemma {:induction false} LessTrichotomy(a: Text, b: Text)
    ensures a == b ==> !Less(a, b)
    ensures a != b ==> (Less(a, b) <==> !Less(b, a))
    decreases |a|
  {
    if a != [] && b != [] {
      LessTrichotomy(a[1..], b[1..]);
      assert a == [a[0]] + a[1..] && b == [b[0]] + b[1..];
    }
  }

  /** Ordinal order says: at the first difference the smaller code unit, or else the shorter text. */
  lemma {:induction false} LessIsOrdinal(a: Text, b: Text)
    ensures Less(a, b) <==> a < b || exists k :: 0 <= k < |a| && k < |b| && a[..k] == b[..k] && a[k] < b[k]
    decreases |a|
  {
    if a != [] && b != [] && a[0] == b[0] {
      LessIsOrdinal(a[1..], b[1..]);
      assert a == [a[0]] + a[1..] && b == [b[0]] + b[1..];
      if k :| 0 <= k < |a[1..]| && k < |b[1..]| && a[1..][..k] == b[1..][..k] && a[1..][k] < b[1..][k] {
        assert a[..k + 1] == [a[0]] + a[1..][..k] && b[..k + 1] == [b[0]] + b[1..][..k];
      }
      if k :| 0 <= k < |a| && k < |b| && a[..k] == b[..k] && a[k] < b[k] {
        assert a[1..][..k - 1] == a[..k][1..] && b[1..][..k - 1] == b[..k][1..];
        assert a[1..][k - 1] == a[k] && b[1..][k - 1] == b[k];
      }
    } else if a != [] && b != [] {
      assert a[..0] == b[..0];
      forall k | 0 < k < |a| && k < |b| ensures a[..k] != b[..k] {
        assert a[..k][0] == a[0] && b[..k][0] == b[0];
      }
    }
  }

  lemma {:induction false} LessTransitive(a: Text, b: Text, c: Text)
    requires Less(a, b) && Less(b, c)
    ensures Less(a, c)
    decreases |a|
  {
    if a != [] && a[0] == b[0] == c[0] {
      LessTransitive(a[1..], b[1..], c[1..]);
    }
  }

  function Insert(m: Member, ms: seq<Member>): (r: seq<Member>)
    ensures forall x :: x in r <==> x == m || x in ms
    ensures |r| == |ms| + 1
  {
    if ms == [] || !Less(ms[0].key, m.key) then [m] + ms
    else
      assert ms == [ms[0]] + ms[1..];
      [ms[0]] + Insert(m, ms[1..])
  }

  /** The stable sort of `OrderBy`. */
  function OrderByKey(ms: seq<Member>): (r: seq<Member>)
    ensures forall x :: x in r <==> x in ms
    ensures |r| == |ms|
  {
    if ms == [] then []
    else
      assert ms == [ms[0]] + ms[1..];
      Insert(ms[0], OrderByKey(ms[1..]))
  }

  predicate Ascending(ms: seq<Member>) {
    forall i, j :: 0 <= i < j < |ms| ==> Less(ms[i].key, ms[j].key)
  }

  predicate UniqueKeys(ms: seq<Member>) {
    forall i, j :: 0 <= i < j < |ms| ==> ms[i].key != ms[j].key
  }

  lemma {:induction false} InsertAscends(m: Member, ms: seq<Member>)
    requires Ascending(ms) && forall x :: x in ms ==> x.key != m.key
    ensures Ascending(Insert(m, ms))
    decreases |ms|
  {
    if ms != [] {
      LessTrichotomy(ms[0].key, m.key);
      if Less(ms[0].key, m.key) {
        InsertAscends(m, ms[1..]);
        var tail := Insert(m, ms[1..]);
        forall j | 0 <= j < |tail| ensures Less(ms[0].key, tail[j].key) {
          assert tail[j] in tail;
          if tail[j] != m {
            var k :| 0 <= k < |ms[1..]| && ms[1..][k] == tail[j];
            assert ms[k + 1] == tail[j];
          }
        }
      } else {
        forall j | 0 <= j < |ms| ensures Less(m.key, ms[j].key) {
          if j > 0 { LessTransitive(m.key, ms[0].key, ms[j].key); }
        }
      }
    }
  }

  /** Sorting unique keys gives a strictly ascending list. */
  lemma {:induction false} OrderAscends(ms: seq<Member>)
    requires UniqueKeys(ms)
    ensures Ascending(OrderByKey(ms))
    decreases |ms|
  {
    if ms != [] {
      OrderAscends(ms[1..]);
      InsertAscends(ms[0], OrderByKey(ms[1..]));
    }
  }

  /** Two ascending lists with the same members are the same list. */
  lemma {:induction false} AscendingUnique(a: seq<Member>, b: seq<Member>)
    requires Ascending(a) && Ascending(b)
    requires forall x :: x in a <==> x in b
    ensures a == b
    decreases |a|
  {
    if a == [] {
      assert forall i :: 0 <= i < |b| ==> b[i] in b;
    } else {
      assert a[0] in b;
      assert b != [];
      HeadsAgree(a, b);
      forall x ensures x in a[1..] <==> x in b[1..] {
        TailMembers(a, x);
        TailMembers(b, x);
      }
      AscendingUnique(a[1..], b[1..]);
      assert a == [a[0]] + a[1..] && b == [b[0]] + b[1..];
    }
  }

  lemma HeadsAgree(a: seq<Member>, b: seq<Member>)
    requires Ascending(a) && Ascending(b) && a != [] && b != []
    requires forall x :: x in a <==> x in b
    ensures a[0] == b[0]
  {
    assert a[0] in b && b[0] in a;
    var i :| 0 <= i < |b| && b[i] == a[0];
    var j :| 0 <= j < |a| && a[j] == b[0];
    if i > 0 && j > 0 {
      LessTrichotomy(a[0].key, b[0].key);
    }
  }

  lemma TailMembers(a: seq<Member>, x: Member)
    requires Ascending(a) && a != []
    ensures x in a[1..] <==> x in a && x != a[0]
  {
    if x in a[1..] {
      var k :| 0 <= k < |a[1..]| && a[1..][k] == x;
      assert a[k + 1] == x;
      LessTrichotomy(a[0].key, x.key);
    }
  }

  // ---- the encoding --------------------------------------------------------------------------------

  function Quoted(s: Text): seq<Byte> {
    [QUOTE] + Body(s) + [QUOTE]
  }

  /** The bytes of a value whose objects are already in order. */
  function Encode(v: Json): seq<Byte>
    decreases v
  {
    match v
    case Null => NULL_TEXT
    case Bool(b) => if b then TRUE_TEXT else FALSE_TEXT
    case Number(text) => (match TryParseLong(text) case Some(n) => Decimal(n) case None => [])
    case Str(s) => Quoted(s)
    case Array(items) => [LBRACKET] + EncodeItems(items, true) + [RBRACKET]
    case Object(members) => [LBRACE] + EncodeMembers(members, true) + [RBRACE]
  }

  function EncodeItems(items: seq<Json>, first: bool): seq<Byte>
    decreases items
  {
    if items == [] then []
    else (if first then [] else [COMMA]) + Encode(items[0]) + EncodeItems(items[1..], false)
  }

  function EncodeMember(m: Member): seq<Byte>
    decreases m
  {
    Quoted(m.key) + [COLON] + Encode(m.value)
  }

  function EncodeMembers(ms: seq<Member>, first: bool): seq<Byte>
    decreases ms
  {
    if ms == [] then []
    else (if first then [] else [COMMA]) + EncodeMember(ms[0]) + EncodeMembers(ms[1..], false)
  }

  /** The first exception the writer meets, in the order of the output. */
  function FirstError(v: Json): Option<Error>
    decreases v
  {
    match v
    case Null => None
    case Bool(_) => None
    case Number(text) => if TryParseLong(text).None? then Some(InvalidNumber) else None
    case Str(s) => if WellFormed(s) then None else Some(UnsupportedType)
    case Array(items) => ItemsError(items)
    case Object(members) => MembersError(members)
  }

  function ItemsError(items: seq<Json>): Option<Error>
    decreases items
  {
    if items == [] then None
    else if FirstError(items[0]).Some? then FirstError(items[0])
    else ItemsError(items[1..])
  }

  function MemberError(m: Member): Option<Error>
    decreases m
  {
    if !WellFormed(m.key) then Some(UnsupportedType) else FirstError(m.value)
  }

  function MembersError(ms: seq<Member>): Option<Error>
    decreases ms
  {
    if ms == [] then None
    else if MemberError(ms[0]).Some? then MemberError(ms[0])
    else MembersError(ms[1..])
  }

  /** Somewhere in the value there is a number that is no 64-bit integer. */
  predicate HasBadNumber(v: Json)
    decreases v
  {
    match v
    case Number(text) => TryParseLong(text).None?
    case Array(items) => exists i :: 0 <= i < |items| && HasBadNumber(items[i])
    case Object(members) => exists i :: 0 <= i < |members| && HasBadNumber(members[i].value)
    case _ => false
  }

  /** Somewhere in it there is text with half of a surrogate pair. */
  predicate HasBadText(v: Json)
    decreases v
  {
    match v
    case Str(s) => !WellFormed(s)
    case Array(items) => exists i :: 0 <= i < |items| && HasBadText(items[i])
    case Object(members) =>
      exists i :: 0 <= i < |members| && (!WellFormed(members[i].key) || HasBadText(members[i].value))
    case _ => false
  }

  /** Each exception has its cause in the value. */
  lemma {:induction false} ErrorHasCause(v: Json)
    ensures FirstError(v) == Some(InvalidNumber) ==> HasBadNumber(v)
    ensures FirstError(v) == Some(UnsupportedType) ==> HasBadText(v)
    decreases v
  {
    match v
    case Array(items) => ItemsHaveCause(items);
    case Object(members) => MembersHaveCause(members);
    case _ =>
  }

  lemma {:induction false} ItemsHaveCause(items: seq<Json>)
    ensures ItemsError(items) == Some(InvalidNumber) ==> exists i :: 0 <= i < |items| && HasBadNumber(items[i])
    ensures ItemsError(items) == Some(UnsupportedType) ==> exists i :: 0 <= i < |items| && HasBadText(items[i])
    decreases items
  {
    if items != [] {
      ErrorHasCause(items[0]);
      ItemsHaveCause(items[1..]);
      assert forall i :: 0 <= i < |items[1..]| ==> items[1..][i] == items[i + 1];
    }
  }

  lemma {:induction false} MembersHaveCause(ms: seq<Member>)
    ensures MembersError(ms) == Some(InvalidNumber) ==> exists i :: 0 <= i < |ms| && HasBadNumber(ms[i].value)
    ensures MembersError(ms) == Some(UnsupportedType) ==>
              exists i :: 0 <= i < |ms| && (!WellFormed(ms[i].key) || HasBadText(ms[i].value))
    decreases ms
  {
    if ms != [] {
      ErrorHasCause(ms[0].value);
      MembersHaveCause(ms[1..]);
      if MemberError(ms[0]).Some? {
        assert MembersError(ms) == MemberError(ms[0]);
        assert MemberError(ms[0]) == Some(InvalidNumber) ==> HasBadNumber(ms[0].value);
      } else if MembersError(ms[1..]) == Some(InvalidNumber) {
        var i :| 0 <= i < |ms[1..]| && HasBadNumber(ms[1..][i].value);
        assert HasBadNumber(ms[i + 1].value);
      } else if MembersError(ms[1..]) == Some(UnsupportedType) {
        var i :| 0 <= i < |ms[1..]| && (!WellFormed(ms[1..][i].key) || HasBadText(ms[1..][i].value));
        assert !WellFormed(ms[i + 1].key) || HasBadText(ms[i + 1].value);
      }
    }
  }

  /** The value with its objects in order and its integers in their invariant text. */
  function Normal(v: Json): Json
    decreases v
  {
    match v
    case Null => v
    case Bool(_) => v
    case Number(text) => (match TryParseLong(text) case Some(n) => Number(Decimal(n)) case None => v)
    case Str(_) => v
    case Array(items) => Array(NormalItems(items))
    case Object(members) => Object(OrderByKey(NormalMembers(members)))
  }

  function NormalItems(items: seq<Json>): (r: seq<Json>)
    ensures |r| == |items|
    decreases items
  {
    if items == [] then [] else [Normal(items[0])] + NormalItems(items[1..])
  }

  function NormalMember(m: Member): Member
    decreases m
  {
    Member(m.key, Normal(m.value))
  }

  function NormalMembers(ms: seq<Member>): (r: seq<Member>)
    ensures |r| == |ms|
    decreases ms
  {
    if ms == [] then [] else [NormalMember(ms[0])] + NormalMembers(ms[1..])
  }

  lemma {:induction false} NormalItemAt(items: seq<Json>, i: nat)
    requires i < |items|
    ensures NormalItems(items)[i] == Normal(items[i])
  {
    if i > 0 {
      NormalItemAt(items[1..], i - 1);
    }
  }

  lemma {:induction false} NormalMemberAt(ms: seq<Member>, i: nat)
    requires i < |ms|
    ensures NormalMembers(ms)[i] == NormalMember(ms[i])
  {
    if i > 0 {
      NormalMemberAt(ms[1..], i - 1);
    }
  }

  // ---- equality up to property order -----------------------------------------------------------------

  /** JsonObject keys are unique, at every level. */
  predicate Unique(v: Json)
    decreases v
  {
    match v
    case Array(items) => (forall i :: 0 <= i < |items| ==> Unique(items[i]))
    case Object(members) => UniqueKeys(members) && (forall i :: 0 <= i < |members| ==> Unique(members[i].value))
    case _ => true
  }

  /** The index of a key, or the length of the list. */
  function Find(ms: seq<Member>, key: Text): (k: nat)
    ensures k <= |ms|
    ensures k < |ms| ==> ms[k].key == key
    ensures k == |ms| ==> forall i :: 0 <= i < |ms| ==> ms[i].key != key
  {
    if ms == [] then 0 else if ms[0].key == key then 0 else 1 + Find(ms[1..], key)
  }

  /** The same value, whatever the order of object properties and the text of integers. */
  predicate Equivalent(v: Json, w: Json)
    decreases v
  {
    match v
    case Number(a) => w.Number? && TryParseLong(a) == TryParseLong(w.text) && (TryParseLong(a).None? ==> a == w.text)
    case Array(items) => w.Array? && |items| == |w.items|
                         && (forall i :: 0 <= i < |items| ==> Equivalent(items[i], w.items[i]))
    case Object(members) =>
      w.Object? && |members| == |w.members|
      && (forall i :: 0 <= i < |members| ==>
            var k := Find(w.members, members[i].key);
            k < |w.members| && Equivalent(members[i].value, w.members[k].value))
    case _ => v == w
  }

  lemma FindKey(ms: seq<Member>, j: nat)
    requires UniqueKeys(ms) && j < |ms|
    ensures Find(ms, ms[j].key) == j
  {
    var k := Find(ms, ms[j].key);
    assert k < |ms| && ms[k].key == ms[j].key;
  }

  lemma NormalKeys(ms: seq<Member>)
    requires UniqueKeys(ms)
    ensures UniqueKeys(NormalMembers(ms))
  {
    var ns := NormalMembers(ms);
    forall i, j | 0 <= i < j < |ns| ensures ns[i].key != ns[j].key {
      NormalMemberAt(ms, i);
      NormalMemberAt(ms, j);
    }
  }

  /** Two values are equal up to property order exactly when their normal forms are equal. */
  lemma {:induction false} EquivalentIffSameNormal(v: Json, w: Json)
    requires Unique(v) && Unique(w)
    ensures Equivalent(v, w) <==> Normal(v) == Normal(w)
    decreases v
  {
    match v
    case Array(items) =>
      if w.Array? && |items| == |w.items| {
        ItemsIff(items, w.items);
      }
    case Object(members) =>
      if w.Object? {
        MembersIff(members, w.members);
      }
    case Number(a) =>
      if w.Number? { NumbersIff(a, w.text); }
    case _ =>
  }

  lemma NumbersIff(a: Text, b: Text)
    ensures Equivalent(Number(a), Number(b)) <==> Normal(Number(a)) == Normal(Number(b))
  {
    if TryParseLong(a).Some? { DecimalRoundTrip(TryParseLong(a).value); }
    if TryParseLong(b).Some? { DecimalRoundTrip(TryParseLong(b).value); }
  }

  lemma {:induction false} ItemsIff(a: seq<Json>, b: seq<Json>)
    requires |a| == |b|
    requires forall i :: 0 <= i < |a| ==> Unique(a[i]) && Unique(b[i])
    ensures (forall i :: 0 <= i < |a| ==> Equivalent(a[i], b[i])) <==> NormalItems(a) == NormalItems(b)
    decreases a, 0
  {
    forall i | 0 <= i < |a| ensures Equivalent(a[i], b[i]) <==> NormalItems(a)[i] == NormalItems(b)[i] {
      NormalItemAt(a, i);
      NormalItemAt(b, i);
      EquivalentIffSameNormal(a[i], b[i]);
    }
  }

  lemma {:induction false} MembersIff(a: seq<Member>, b: seq<Member>)
    requires UniqueKeys(a) && UniqueKeys(b)
    requires forall i :: 0 <= i < |a| ==> Unique(a[i].value)
    requires forall i :: 0 <= i < |b| ==> Unique(b[i].value)
    ensures Equivalent(Object(a), Object(b)) <==> OrderByKey(NormalMembers(a)) == OrderByKey(NormalMembers(b))
    decreases a, 0
  {
    var na, nb := NormalMembers(a), NormalMembers(b);
    NormalKeys(a);
    NormalKeys(b);
    forall i | 0 <= i < |a|
      ensures na[i] in nb <==> var k := Find(b, a[i].key); k < |b| && Equivalent(a[i].value, b[k].value)
    {
      NormalMemberAt(a, i);
      var k := Find(b, a[i].key);
      if k < |b| {
        NormalMemberAt(b, k);
        EquivalentIffSameNormal(a[i].value, b[k].value);
      }
      if na[i] in nb {
        var j :| 0 <= j < |nb| && nb[j] == na[i];
        NormalMemberAt(b, j);
        FindKey(b, j);
      }
    }
    if Equivalent(Object(a), Object(b)) {
      SubsetOfSameSize(na, nb);
      OrderAscends(na);
      OrderAscends(nb);
      AscendingUnique(OrderByKey(na), OrderByKey(nb));
    }
    assert forall i :: 0 <= i < |a| ==> na[i] in OrderByKey(na);
  }

  /** Unique members that are all in an equally long list make up the whole list. */
  lemma SubsetOfSameSize(a: seq<Member>, b: seq<Member>)
    requires |a| == |b| && UniqueKeys(a) && UniqueKeys(b)
    requires forall i :: 0 <= i < |a| ==> a[i] in b
    ensures forall x :: x in a <==> x in b
  {
    var sa, sb := set x | x in a, set x | x in b;
    Cardinality(a);
    Cardinality(b);
    assert sa <= sb;
    assert sb == sa + (sb - sa);
    forall x | x in b ensures x in a {
      assert x in sb;
    }
  }

  lemma {:induction false} Cardinality(a: seq<Member>)
    requires UniqueKeys(a)
    ensures |set x | x in a| == |a|
    decreases |a|
  {
    var all := set x | x in a;
    if a == [] {
      assert all == {};
    } else {
      var tail := set x | x in a[1..];
      Cardinality(a[1..]);
      forall k | 0 <= k < |a[1..]| ensures a[1..][k] != a[0] {
        assert a[1..][k] == a[k + 1];
      }
      assert a == [a[0]] + a[1..];
      assert all == {a[0]} + tail;
    }
  }

  // ---- reading canonical text back -----------------------------------------------------------------

  predicate StartsWith(b: seq<Byte>, prefix: seq<Byte>) {
    |prefix| <= |b| && b[..|prefix|] == prefix
  }

  predicate Next(b: seq<Byte>, c: Byte) {
    b != [] && b[0] == c
  }

  function ParseQuoted(b: seq<Byte>): (r: Option<Parsed<Text>>)
    ensures r.Some? ==> |r.value.rest| < |b|
  {
    if !Next(b, QUOTE) then None
    else
      ParseBodyShrinks(b[1..]);
      ParseBody(b[1..])
  }

  lemma {:induction false} ParseBodyShrinks(b: seq<Byte>)
    ensures ParseBody(b).Some? ==> |ParseBody(b).value.rest| < |b|
    decreases |b|
  {
    if b != [] && b[0] != QUOTE && DecodeNext(b).Some? && 0 < DecodeNext(b).value.length <= |b| {
      ParseBodyShrinks(b[DecodeNext(b).value.length..]);
    }
  }

  /** An optional minus sign and as many digits as follow. */
  function ParseNumber(b: seq<Byte>): (r: Option<Parsed<Json>>)
    ensures r.Some? ==> |r.value.rest| < |b|
  {
    var sign := if Next(b, MINUS) then 1 else 0;
    var length := sign + DigitRun(b[sign..]);
    if length == sign then None else Some(Parsed(Number(b[..length]), b[length..]))
  }

  function ParseValue(b: seq<Byte>): (r: Option<Parsed<Json>>)
    ensures r.Some? ==> |r.value.rest| < |b|
    decreases |b|, 0
  {
    if b == [] then None
    else if b[0] == QUOTE then
          (match ParseQuoted(b) case None => None case Some(p) => Some(Parsed(Str(p.value), p.rest)))
    else if b[0] == LBRACKET then
      (if Next(b[1..], RBRACKET) then Some(Parsed(Array([]), b[2..]))
       else match ParseItems(b[1..]) case None => None case Some(p) => Some(Parsed(Array(p.value), p.rest)))
    else if b[0] == LBRACE then
      (if Next(b[1..], RBRACE) then Some(Parsed(Object([]), b[2..]))
       else match ParseMembers(b[1..]) case None => None case Some(p) => Some(Parsed(Object(p.value), p.rest)))
    else if StartsWith(b, NULL_TEXT) then Some(Parsed(Null, b[4..]))
    else if StartsWith(b, TRUE_TEXT) then Some(Parsed(Bool(true), b[4..]))
    else if StartsWith(b, FALSE_TEXT) then Some(Parsed(Bool(false), b[5..]))
    else ParseNumber(b)
  }

  /** One or more values and the closing bracket. */
  function ParseItems(b: seq<Byte>): (r: Option<Parsed<seq<Json>>>)
    ensures r.Some? ==> |r.value.rest| < |b|
    decreases |b|, 1
  {
    match ParseValue(b)
    case None => None
    case Some(v) =>
      if Next(v.rest, RBRACKET) then Some(Parsed([v.value], v.rest[1..]))
      else if !Next(v.rest, COMMA) then None
      else
        match ParseItems(v.rest[1..])
        case None => None
        case Some(p) => Some(Parsed([v.value] + p.value, p.rest))
  }

  function ParseMember(b: seq<Byte>): (r: Option<Parsed<Member>>)
    ensures r.Some? ==> |r.value.rest| < |b|
    decreases |b|, 1
  {
    match ParseQuoted(b)
    case None => None
    case Some(key) =>
      if !Next(key.rest, COLON) then None
      else
        match ParseValue(key.rest[1..])
        case None => None
        case Some(v) => Some(Parsed(Member(key.value, v.value), v.rest))
  }

  /** One or more properties and the closing brace. */
  function ParseMembers(b: seq<Byte>): (r: Option<Parsed<seq<Member>>>)
    ensures r.Some? ==> |r.value.rest| < |b|
    decreases |b|, 2
  {
    match ParseMember(b)
    case None => None
    case Some(m) =>
      if Next(m.rest, RBRACE) then Some(Parsed([m.value], m.rest[1..]))
      else if !Next(m.rest, COMMA) then None
      else
        match ParseMembers(m.rest[1..])
        case None => None
        case Some(p) => Some(Parsed([m.value] + p.value, p.rest))
  }

  /** Integers stand in their invariant text, as in a normal form. */
  predicate Plain(v: Json)
    decreases v
  {
    match v
    case Number(text) => TryParseLong(text).Some? && text == Decimal(TryParseLong(text).value)
    case Array(items) => forall i :: 0 <= i < |items| ==> Plain(items[i])
    case Object(members) => forall i :: 0 <= i < |members| ==> Plain(members[i].value)
    case _ => true
  }

  /** A number may not run into a digit. */
  predicate Stops(rest: seq<Byte>) {
    rest == [] || !IsDigit(rest[0])
  }

  lemma QuotedRoundTrip(s: Text, rest: seq<Byte>)
    requires WellFormed(s)
    ensures ParseQuoted(Quoted(s) + rest) == Some(Parsed(s, rest))
  {
    hide Body, ParseBody;
    assert (Quoted(s) + rest)[1..] == Body(s) + [QUOTE] + rest;
    BodyRoundTrip(s, rest);
  }

  lemma StartsWithHead(b: seq<Byte>, prefix: seq<Byte>)
    requires prefix != [] && StartsWith(b, prefix)
    ensures b[0] == prefix[0]
  {
    assert b[..|prefix|][0] == b[0];
  }

  /** The first byte decides that a number follows. */
  lemma NumberFollows(b: seq<Byte>)
    requires b != [] && (IsDigit(b[0]) || b[0] == MINUS)
    ensures ParseValue(b) == ParseNumber(b)
  {
    hide ParseNumber, ParseQuoted, StartsWith;
    if StartsWith(b, NULL_TEXT) { StartsWithHead(b, NULL_TEXT); }
    if StartsWith(b, TRUE_TEXT) { StartsWithHead(b, TRUE_TEXT); }
    if StartsWith(b, FALSE_TEXT) { StartsWithHead(b, FALSE_TEXT); }
  }

  /** A sign or none, then digits up to something else. */
  lemma DigitsParse(sign: seq<Byte>, digits: seq<Byte>, rest: seq<Byte>)
    requires sign == [] || sign == [MINUS]
    requires digits != [] && (forall i :: 0 <= i < |digits| ==> IsDigit(digits[i])) && Stops(rest)
    ensures var text := sign + digits; ParseNumber(text + rest) == Some(Parsed(Number(text), rest))
  {
    hide DigitRun;
    var b := (sign + digits) + rest;
    DigitRunStops(digits, rest);
    assert b[|sign|..] == digits + rest && b[..|sign + digits|] == sign + digits && b[|sign + digits|..] == rest;
  }

  lemma NumberRoundTrip(n: int, rest: seq<Byte>)
    requires Stops(rest)
    ensures ParseValue(Decimal(n) + rest) == Some(Parsed(Number(Decimal(n)), rest))
  {
    hide Digits, DigitRun, ParseValue, ParseNumber;
    var digits := Digits(if n < 0 then -n else n);
    DigitsParse(if n < 0 then [MINUS] else [], digits, rest);
    assert Decimal(n) == (if n < 0 then [MINUS] else []) + digits;
    assert (Decimal(n) + rest)[0] == if n < 0 then MINUS else digits[0];
    NumberFollows(Decimal(n) + rest);
  }

  /** Reading what was written gives the value back, whatever follows it. */
  lemma {:induction false} RoundTrip(v: Json, rest: seq<Byte>)
    requires FirstError(v).None? && Plain(v) && Stops(rest)
    ensures Encode(v) != [] && Encode(v)[0] != RBRACKET
    ensures ParseValue(Encode(v) + rest) == Some(Parsed(v, rest))
    decreases v
  {
    hide ParseValue;
    match v
    case Null => WordRoundTrip(v, NULL_TEXT, rest);
    case Bool(b) => WordRoundTrip(v, if b then TRUE_TEXT else FALSE_TEXT, rest);
    case Number(text) => NumberRoundTrip(TryParseLong(text).value, rest);
    case Str(s) => StringRoundTrip(s, rest);
    case Array(items) => ArrayRoundTrip(items, rest);
    case Object(members) => ObjectRoundTrip(members, rest);
  }

  lemma WordRoundTrip(v: Json, word: seq<Byte>, rest: seq<Byte>)
    requires (v == Null && word == NULL_TEXT) || (v == Bool(true) && word == TRUE_TEXT)
             || (v == Bool(false) && word == FALSE_TEXT)
    ensures ParseValue(word + rest) == Some(Parsed(v, rest))
  {
    var b := word + rest;
    assert b[..|word|] == word && b[|word|..] == rest;
    assert b[0] == word[0];
    if StartsWith(b, NULL_TEXT) { StartsWithHead(b, NULL_TEXT); }
    if StartsWith(b, TRUE_TEXT) { StartsWithHead(b, TRUE_TEXT); }
    hide ParseQuoted, ParseNumber;
  }

  lemma StringRoundTrip(s: Text, rest: seq<Byte>)
    requires WellFormed(s)
    ensures ParseValue(Quoted(s) + rest) == Some(Parsed(Str(s), rest))
  {
    QuotedRoundTrip(s, rest);
    hide ParseQuoted;
  }

  lemma {:induction false} ArrayRoundTrip(items: seq<Json>, rest: seq<Byte>)
    requires ItemsError(items).None? && forall i :: 0 <= i < |items| ==> Plain(items[i])
    ensures ParseValue(Encode(Array(items)) + rest) == Some(Parsed(Array(items), rest))
    decreases items, 1
  {
    var b := Encode(Array(items)) + rest;
    if items == [] {
      assert b[1..] == [RBRACKET] + rest && b[2..] == rest;
    } else {
      assert b[1..] == EncodeItems(items, true) + [RBRACKET] + rest;
      ItemsRoundTrip(items, rest);
    }
    hide ParseItems, EncodeItems;
  }

  lemma {:induction false} ItemsRoundTrip(items: seq<Json>, rest: seq<Byte>)
    requires items != [] && ItemsError(items).None? && forall i :: 0 <= i < |items| ==> Plain(items[i])
    ensures var b := EncodeItems(items, true) + [RBRACKET] + rest;
            b != [] && b[0] != RBRACKET && ParseItems(b) == Some(Parsed(items, rest))
    decreases items, 0
  {
    hide ParseValue, Encode;
    var b := EncodeItems(items, true) + [RBRACKET] + rest;
    var tail := EncodeItems(items[1..], false) + [RBRACKET] + rest;
    assert b == Encode(items[0]) + tail;
    assert items == [items[0]] + items[1..];
    if items[1..] == [] {
      assert tail == [RBRACKET] + rest && items == [items[0]];
      RoundTrip(items[0], tail);
      assert tail[1..] == rest;
    } else {
      var more := EncodeItems(items[1..], true) + [RBRACKET] + rest;
      assert tail == [COMMA] + more;
      RoundTrip(items[0], tail);
      assert tail[1..] == more;
      ItemsRoundTrip(items[1..], rest);
    }
  }

  lemma {:induction false} MemberRoundTrip(m: Member, rest: seq<Byte>)
    requires MemberError(m).None? && Plain(m.value) && Stops(rest)
    ensures ParseMember(EncodeMember(m) + rest) == Some(Parsed(m, rest))
    decreases m
  {
    hide ParseValue, Encode, ParseQuoted, Quoted;
    var after := [COLON] + Encode(m.value) + rest;
    assert EncodeMember(m) + rest == Quoted(m.key) + after;
    QuotedRoundTrip(m.key, after);
    assert after[1..] == Encode(m.value) + rest;
    RoundTrip(m.value, rest);
  }

  lemma {:induction false} ObjectRoundTrip(members: seq<Member>, rest: seq<Byte>)
    requires MembersError(members).None? && forall i :: 0 <= i < |members| ==> Plain(members[i].value)
    ensures ParseValue(Encode(Object(members)) + rest) == Some(Parsed(Object(members), rest))
    decreases members, 1
  {
    var b := Encode(Object(members)) + rest;
    if members == [] {
      assert b[1..] == [RBRACE] + rest && b[2..] == rest;
    } else {
      assert b[1..] == EncodeMembers(members, true) + [RBRACE] + rest;
      MembersRoundTrip(members, rest);
    }
    hide ParseMembers, EncodeMembers;
  }

  lemma {:induction false} MembersRoundTrip(members: seq<Member>, rest: seq<Byte>)
    requires members != [] && MembersError(members).None? && forall i :: 0 <= i < |members| ==> Plain(members[i].value)
    ensures var b := EncodeMembers(members, true) + [RBRACE] + rest;
            b != [] && b[0] != RBRACE && ParseMembers(b) == Some(Parsed(members, rest))
    decreases members, 0
  {
    hide ParseMember, Encode, MemberError;
    var b := EncodeMembers(members, true) + [RBRACE] + rest;
    var tail := EncodeMembers(members[1..], false) + [RBRACE] + rest;
    assert b == EncodeMember(members[0]) + tail;
    assert members == [members[0]] + members[1..];
    if members[1..] == [] {
      assert tail == [RBRACE] + rest && members == [members[0]];
      MemberRoundTrip(members[0], tail);
      assert tail[1..] == rest;
    } else {
      var more := EncodeMembers(members[1..], true) + [RBRACE] + rest;
      assert tail == [COMMA] + more;
      MemberRoundTrip(members[0], tail);
      assert tail[1..] == more;
      MembersRoundTrip(members[1..], rest);
    }
  }

  // ---- the canonical form decides equality ---------------------------------------------------------

  /** The canonical bytes of a value, and the exception if there is one. */
  function CanonicalBytes(v: Json): seq<Byte> {
    Encode(Normal(v))
  }

  function CanonicalError(v: Json): Option<Error> {
    FirstError(Normal(v))
  }

  /** Every string is well-formed UTF-16 and every number a 64-bit integer. */
  predicate Encodable(v: Json)
    decreases v
  {
    match v
    case Number(text) => TryParseLong(text).Some?
    case Str(s) => WellFormed(s)
    case Array(items) => forall i :: 0 <= i < |items| ==> Encodable(items[i])
    case Object(members) => forall i :: 0 <= i < |members| ==> WellFormed(members[i].key) && Encodable(members[i].value)
    case _ => true
  }

  lemma {:induction false} ItemsErrorNone(items: seq<Json>)
    ensures ItemsError(items).None? <==> forall i :: 0 <= i < |items| ==> FirstError(items[i]).None?
    decreases |items|
  {
    hide FirstError;
    if items != [] {
      ItemsErrorNone(items[1..]);
      assert items == [items[0]] + items[1..];
    }
  }

  lemma {:induction false} MembersErrorNone(ms: seq<Member>)
    ensures MembersError(ms).None? <==> forall m :: m in ms ==> MemberError(m).None?
    decreases |ms|
  {
    hide MemberError;
    if ms != [] {
      MembersErrorNone(ms[1..]);
      assert ms == [ms[0]] + ms[1..];
      assert ms[0] in ms;
      forall m | m in ms && MembersError(ms).None? ensures MemberError(m).None? {
        assert m == ms[0] || m in ms[1..];
      }
      assert forall m :: m in ms[1..] ==> m in ms;
    }
  }

  /** The writer succeeds exactly on encodable values, and what it writes is in plain form. */
  lemma {:induction false} SucceedsIffEncodable(v: Json)
    ensures CanonicalError(v).None? <==> Encodable(v)
    ensures CanonicalError(v).None? ==> Plain(Normal(v))
    decreases v
  {
    match v
    case Number(text) => if TryParseLong(text).Some? { DecimalRoundTrip(TryParseLong(text).value); }
    case Array(items) => ArraySucceeds(items);
    case Object(members) => ObjectSucceeds(members);
    case _ =>
  }

  lemma {:induction false} ArraySucceeds(items: seq<Json>)
    ensures CanonicalError(Array(items)).None? <==> Encodable(Array(items))
    ensures CanonicalError(Array(items)).None? ==> Plain(Array(NormalItems(items)))
    decreases items, 0
  {
    ItemsErrorNone(NormalItems(items));
    forall i | 0 <= i < |items|
      ensures FirstError(NormalItems(items)[i]).None? <==> Encodable(items[i])
      ensures FirstError(NormalItems(items)[i]).None? ==> Plain(NormalItems(items)[i])
    {
      NormalItemAt(items, i);
      SucceedsIffEncodable(items[i]);
    }
  }

  lemma {:induction false} ObjectSucceeds(ms: seq<Member>)
    ensures CanonicalError(Object(ms)).None? <==> Encodable(Object(ms))
    ensures CanonicalError(Object(ms)).None? ==> Plain(Object(OrderByKey(NormalMembers(ms))))
    decreases ms, 0
  {
    var ns := NormalMembers(ms);
    MembersErrorNone(OrderByKey(ns));
    forall i | 0 <= i < |ms|
      ensures ns[i].key == ms[i].key
      ensures MemberError(ns[i]).None? <==> WellFormed(ms[i].key) && Encodable(ms[i].value)
      ensures MemberError(ns[i]).None? ==> Plain(ns[i].value)
    {
      NormalMemberAt(ms, i);
      SucceedsIffEncodable(ms[i].value);
    }
    forall m | m in ns && MemberError(m).None? ensures Plain(m.value) {
      var i :| 0 <= i < |ns| && ns[i] == m;
      assert 0 <= i < |ms|;
    }
    assert CanonicalError(Object(ms)).None? <==> forall m :: m in ns ==> MemberError(m).None?;
    assert (forall m :: m in ns ==> MemberError(m).None?) <==> forall i :: 0 <= i < |ns| ==> MemberError(ns[i]).None?;
    hide Encode, FirstError, OrderByKey;
  }

  /** A parser recovers the value, up to property order and integer text, from the canonical bytes alone. */
  lemma ParseRecovers(v: Json)
    requires Encodable(v)
    ensures ParseValue(CanonicalBytes(v)) == Some(Parsed(Normal(v), []))
  {
    SucceedsIffEncodable(v);
    RoundTrip(Normal(v), []);
    assert CanonicalBytes(v) + [] == CanonicalBytes(v);
  }

  /** Canonical bytes are equal exactly when the values are: injective, and independent of insertion order. */
  lemma SameBytesIffEquivalent(v: Json, w: Json)
    requires Encodable(v) && Encodable(w) && Unique(v) && Unique(w)
    ensures CanonicalBytes(v) == CanonicalBytes(w) <==> Equivalent(v, w)
  {
    ParseRecovers(v);
    ParseRecovers(w);
    EquivalentIffSameNormal(v, w);
    hide ParseValue, Encode, Normal;
  }

  /** Any two insertion orders of the same properties have the same canonical bytes. */
  lemma InsertionOrderIsIrrelevant(a: seq<Member>, b: seq<Member>)
    requires Unique(Object(a)) && Unique(Object(b)) && multiset(a) == multiset(b)
    ensures CanonicalBytes(Object(a)) == CanonicalBytes(Object(b))
  {
    assert |a| == |multiset(a)| == |b|;
    forall i | 0 <= i < |a| ensures Find(b, a[i].key) < |b| && b[Find(b, a[i].key)] == a[i] {
      assert a[i] in multiset(b);
      var j :| 0 <= j < |b| && b[j] == a[i];
      FindKey(b, j);
    }
    forall i | 0 <= i < |a| ensures Equivalent(a[i].value, a[i].value) {
      EquivalentIffSameNormal(a[i].value, a[i].value);
    }
    EquivalentIffSameNormal(Object(a), Object(b));
    hide Normal;
  }

  // ---- the writer ------------------------------------------------------------------------------------

  class MemoryStream {
    var data: seq<Byte>

    constructor ()
      ensures data == []
    {
      data := [];
    }

    method Write(bytes: seq<Byte>)
      modifies this
      ensures data == old(data) + bytes
    {
      data := data + bytes;
    }
  }

  /** `StrictUtf8.GetBytes` of a slice, or the exception for a lone surrogate. */
  method WriteRaw(buffer: MemoryStream, value: Text, start: nat, end: nat) returns (error: Option<Error>)
    requires start <= end <= |value|
    modifies buffer
    ensures error == if WellFormed(value[start..end]) then None else Some(UnsupportedType)
    ensures error.None? ==> buffer.data == old(buffer.data) + Utf8(value[start..end])
  {
    if end <= start {
      return None;
    }
    if !WellFormed(value[start..end]) {
      return Some(UnsupportedType);
    }
    buffer.Write(Utf8(value[start..end]));
    return None;
  }

  predicate NothingToEscape(s: Text) {
    forall i :: 0 <= i < |s| ==> !Escaped(s[i])
  }

  /** An escaped character, and the run of plain characters before it. */
  lemma RunThenEscape(value: Text, start: nat, index: nat)
    requires start <= index < |value| && Escaped(value[index]) && NothingToEscape(value[start..index])
    requires start == 0 || Escaped(value[start - 1])
    ensures Body(value[..index + 1]) == Body(value[..start]) + Utf8(value[start..index]) + Escape(value[index])
    ensures WellFormed(value[..index + 1]) <==> WellFormed(value[..start]) && WellFormed(value[start..index])
  {
    hide Escape, Utf8, Chunk;
    RunExtends(value, start, index);
    assert value[..index + 1] == value[..index] + [value[index]];
    BodySplit(value[..index], [value[index]]);
    SingleEscape(value[index]);
  }

  lemma SingleEscape(c: Unit)
    requires Escaped(c)
    ensures Body([c]) == Escape(c) && WellFormed([c])
  {
    assert [c][1..] == [];
  }

  /** A run of plain characters after an escaped one. */
  lemma RunExtends(value: Text, start: nat, end: nat)
    requires start <= end <= |value| && NothingToEscape(value[start..end])
    requires start == 0 || Escaped(value[start - 1])
    ensures Body(value[..end]) == Body(value[..start]) + Utf8(value[start..end])
    ensures WellFormed(value[..end]) <==> WellFormed(value[..start]) && WellFormed(value[start..end])
  {
    assert value[..end] == value[..start] + value[start..end];
    assert start > 0 ==> value[..start][start - 1] == value[start - 1];
    BodySplit(value[..start], value[start..end]);
    BodyIsUtf8(value[start..end]);
  }

  lemma WellFormedPrefix(value: Text, n: nat)
    requires n <= |value| && Splits(value[..n], value[n..]) && !WellFormed(value[..n])
    ensures !WellFormed(value)
  {
    assert value == value[..n] + value[n..];
    BodySplit(value[..n], value[n..]);
  }

  /** Flushes runs of plain characters between escapes; the result is as if each character were written by itself. */
  method WriteString(buffer: MemoryStream, value: Text) returns (error: Option<Error>)
    modifies buffer
    ensures error == if WellFormed(value) then None else Some(UnsupportedType)
    ensures error.None? ==> buffer.data == old(buffer.data) + Quoted(value)
  {
    hide Utf8, Body, Chunk, Escape, WellFormed;
    buffer.Write([QUOTE]);
    var start := 0;
    assert value[..0] == [] && WellFormed([]) && Body([]) == [] by { EmptyText(); }
    for index := 0 to |value|
      invariant start <= index
      invariant start == 0 || Escaped(value[start - 1])
      invariant NothingToEscape(value[start..index])
      invariant WellFormed(value[..start])
      invariant buffer.data == old(buffer.data) + [QUOTE] + Body(value[..start])
    {
      var character := value[index];
      if Escaped(character) {
        RunThenEscape(value, start, index);
        error := WriteRaw(buffer, value, start, index);
        if error.Some? {
          WellFormedPrefix(value, index + 1);
          return;
        }
        start := index + 1;
        buffer.Write(Escape(character));
        assert value[start..start] == [];
      } else {
        assert value[start..index + 1] == value[start..index] + [character];
      }
    }
    RunExtends(value, start, |value|);
    assert value[..|value|] == value;
    error := WriteRaw(buffer, value, start, |value|);
    if error.None? {
      buffer.Write([QUOTE]);
    }
  }

  lemma EmptyText()
    ensures WellFormed([]) && Body([]) == []
  {
  }

  method WriteValue(buffer: MemoryStream, value: Json) returns (error: Option<Error>)
    requires value.Bool? || value.Number? || value.Str?
    modifies buffer
    ensures error == CanonicalError(value)
    ensures error.None? ==> buffer.data == old(buffer.data) + CanonicalBytes(value)
  {
    hide Decimal, Quoted, TryParseLong;
    match value
    case Str(s) => error := WriteString(buffer, s);
    case Bool(b) =>
      buffer.Write(if b then TRUE_TEXT else FALSE_TEXT);
      error := None;
    case Number(text) =>
      var number := TryParseLong(text);
      if number.None? {
        return Some(InvalidNumber);
      }
      NumberAgain(text);
      buffer.Write(Decimal(number.value));
      error := None;
  }

  lemma NumberAgain(text: Text)
    requires TryParseLong(text).Some?
    ensures TryParseLong(Decimal(TryParseLong(text).value)) == TryParseLong(text)
  {
    DecimalRoundTrip(TryParseLong(text).value);
  }

  /** Sorting does not look at the values, so normal children may be sorted before or after. */
  lemma {:induction false} NormalInsert(m: Member, ms: seq<Member>)
    ensures NormalMembers(Insert(m, ms)) == Insert(NormalMember(m), NormalMembers(ms))
    decreases |ms|
  {
    var r := Insert(m, ms);
    if ms == [] || !Less(ms[0].key, m.key) {
      assert r[1..] == ms;
    } else {
      NormalInsert(m, ms[1..]);
      assert r[1..] == Insert(m, ms[1..]);
      assert NormalMembers(ms)[1..] == NormalMembers(ms[1..]);
    }
  }

  lemma {:induction false} NormalOrder(ms: seq<Member>)
    ensures NormalMembers(OrderByKey(ms)) == OrderByKey(NormalMembers(ms))
    decreases |ms|
  {
    if ms != [] {
      NormalOrder(ms[1..]);
      NormalInsert(ms[0], OrderByKey(ms[1..]));
      assert NormalMembers(ms)[1..] == NormalMembers(ms[1..]);
    }
  }

  /** The writer: it fails as `CanonicalError` says and otherwise appends the canonical bytes. */
  method Write(buffer: MemoryStream, value: Json) returns (error: Option<Error>)
    modifies buffer
    ensures error == CanonicalError(value)
    ensures error.None? ==> buffer.data == old(buffer.data) + CanonicalBytes(value)
    decreases value, 1
  {
    match value
    case Null =>
      buffer.Write(NULL_TEXT);
      error := None;
    case Object(members) =>
      error := WriteObject(buffer, members);
    case Array(items) =>
      error := WriteArray(buffer, items);
    case _ =>
      error := WriteValue(buffer, value);
  }

  method WriteArray(buffer: MemoryStream, items: seq<Json>) returns (error: Option<Error>)
    modifies buffer
    ensures error == CanonicalError(Array(items))
    ensures error.None? ==> buffer.data == old(buffer.data) + CanonicalBytes(Array(items))
    decreases items, 0
  {
    hide Encode, FirstError, Normal;
    buffer.Write([LBRACKET]);
    var first := true;
    for index := 0 to |items|
      invariant first == (index == 0)
      invariant ItemsError(NormalItems(items)) == ItemsError(NormalItems(items[index..]))
      invariant buffer.data + EncodeItems(NormalItems(items[index..]), first)
                == old(buffer.data) + [LBRACKET] + EncodeItems(NormalItems(items), true)
    {
      var rest := items[index..];
      assert rest[0] == items[index] && rest[1..] == items[index + 1..];
      assert NormalItems(rest)[1..] == NormalItems(rest[1..]);
      if !first {
        buffer.Write([COMMA]);
      }
      first := false;
      error := Write(buffer, items[index]);
      if error.Some? {
        ArrayParts(items);
        return;
      }
    }
    ghost var written := EncodeItems(NormalItems(items), true);
    assert items[|items|..] == [] && buffer.data == old(buffer.data) + [LBRACKET] + written;
    buffer.Write([RBRACKET]);
    error := None;
    ArrayParts(items);
    assert buffer.data == old(buffer.data) + ([LBRACKET] + written + [RBRACKET]);
  }

  lemma ArrayParts(items: seq<Json>)
    ensures CanonicalBytes(Array(items)) == [LBRACKET] + EncodeItems(NormalItems(items), true) + [RBRACKET]
    ensures CanonicalError(Array(items)) == ItemsError(NormalItems(items))
  {
  }

  lemma ObjectParts(members: seq<Member>)
    ensures CanonicalBytes(Object(members))
            == [LBRACE] + EncodeMembers(NormalMembers(OrderByKey(members)), true) + [RBRACE]
    ensures CanonicalError(Object(members)) == MembersError(NormalMembers(OrderByKey(members)))
  {
    NormalOrder(members);
    assert Normal(Object(members)) == Object(OrderByKey(NormalMembers(members)));
  }

  /** A property: its name, a colon and its value. */
  method WriteMember(buffer: MemoryStream, m: Member) returns (error: Option<Error>)
    modifies buffer
    ensures error == MemberError(NormalMember(m))
    ensures error.None? ==> buffer.data == old(buffer.data) + EncodeMember(NormalMember(m))
    decreases m, 2
  {
    hide Encode, FirstError, Normal, Quoted, WellFormed;
    error := WriteString(buffer, m.key);
    if error.Some? {
      return;
    }
    buffer.Write([COLON]);
    error := Write(buffer, m.value);
  }

  lemma MembersStep(rest: seq<Member>, first: bool)
    requires rest != []
    ensures EncodeMembers(NormalMembers(rest), first)
         == (if first then [] else [COMMA]) + EncodeMember(NormalMember(rest[0]))
         + EncodeMembers(NormalMembers(rest[1..]), false)
    ensures MembersError(NormalMembers(rest))
         == if MemberError(NormalMember(rest[0])).Some? then MemberError(NormalMember(rest[0]))
            else MembersError(NormalMembers(rest[1..]))
  {
    hide EncodeMember, MemberError, NormalMember;
    assert NormalMembers(rest)[1..] == NormalMembers(rest[1..]);
  }

  lemma NoMembers()
    ensures EncodeMembers(NormalMembers([]), true) == EncodeMembers(NormalMembers([]), false) == []
    ensures MembersError(NormalMembers([])).None?
  {
  }

  method WriteObject(buffer: MemoryStream, members: seq<Member>) returns (error: Option<Error>)
    modifies buffer
    ensures error == CanonicalError(Object(members))
    ensures error.None? ==> buffer.data == old(buffer.data) + CanonicalBytes(Object(members))
    decreases members, 0
  {
    hide EncodeMember, MemberError, NormalMember, Encode, FirstError, Normal, OrderByKey, Quoted, WellFormed,
        EncodeMembers,
      MembersError, NormalMembers;
    NoMembers();
    buffer.Write([LBRACE]);
    var firstProperty := true;
    var properties := OrderByKey(members);
    for index := 0 to |properties|
      invariant firstProperty == (index == 0)
      invariant MembersError(NormalMembers(properties)) == MembersError(NormalMembers(properties[index..]))
      invariant buffer.data + EncodeMembers(NormalMembers(properties[index..]), firstProperty)
                == old(buffer.data) + [LBRACE] + EncodeMembers(NormalMembers(properties), true)
    {
      var rest := properties[index..];
      assert rest[0] == properties[index] && rest[1..] == properties[index + 1..];
      MembersStep(rest, firstProperty);
      if !firstProperty {
        buffer.Write([COMMA]);
      }
      firstProperty := false;
      assert properties[index] in members;
      error := WriteMember(buffer, properties[index]);
      if error.Some? {
        ObjectParts(members);
        return;
      }
    }
    ghost var written := EncodeMembers(NormalMembers(properties), true);
    assert properties[|properties|..] == [] && buffer.data == old(buffer.data) + [LBRACE] + written;
    buffer.Write([RBRACE]);
    error := None;
    ObjectParts(members);
    assert buffer.data == old(buffer.data) + ([LBRACE] + written + [RBRACE]);
  }

  /** `CanonicalJson.Bytes`. */
  method Bytes(value: Json) returns (bytes: seq<Byte>, error: Option<Error>)
    ensures error == CanonicalError(value)
    ensures error.None? <==> Encodable(value)
    ensures error.None? ==> bytes == CanonicalBytes(value) && ParseValue(bytes) == Some(Parsed(Normal(value), []))
  {
    var buffer := new MemoryStream();
    error := Write(buffer, value);
    SucceedsIffEncodable(value);
    if error.None? {
      ParseRecovers(value);
    }
    bytes := buffer.data;
  }
}
