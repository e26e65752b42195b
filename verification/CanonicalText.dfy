// Canonical JSON text: string escaping, UTF-8 and decimal numbers, each with its decoder.
// Strings are sequences of UTF-16 code units, as in the .NET runtime.

module CanonicalText {
  import opened Options

  type Byte = x: int | 0 <= x < 0x100
  type Unit = x: int | 0 <= x < 0x10000

  const QUOTE: Byte := 0x22
  const BACKSLASH: Byte := 0x5C
  const SLASH: Byte := 0x2F

  predicate IsHigh(c: int) {
    0xD800 <= c < 0xDC00
  }

  predicate IsLow(c: int) {
    0xDC00 <= c < 0xE000
  }

  /** The sequence starts with a surrogate pair. */
  predicate Pair(s: seq<Unit>) {
    |s| >= 2 && IsHigh(s[0]) && IsLow(s[1])
  }

  function Width(s: seq<Unit>): (n: nat)
    requires s != []
    ensures 1 <= n <= |s|
  {
    if Pair(s) then 2 else 1
  }

  /** No surrogate without its partner. */
  predicate WellFormed(s: seq<Unit>)
    decreases |s|
  {
    s == [] || ((IsHigh(s[0]) || IsLow(s[0]) ==> Pair(s)) && WellFormed(s[Width(s)..]))
  }

  predicate Escaped(c: Unit) {
    c < 0x20 || c == QUOTE || c == BACKSLASH
  }

  function HexDigit(n: int): (b: Byte)
    requires 0 <= n < 16
  {
    if n < 10 then 0x30 + n else 0x61 + n - 10
  }

  /** RFC 8259 section 7: the two-character escapes, and `\u00xx` for other control characters. */
  function Escape(c: Unit): seq<Byte>
    requires Escaped(c)
  {
    if c == QUOTE then [BACKSLASH, QUOTE]
    else if c == BACKSLASH then [BACKSLASH, BACKSLASH]
    else if c == 8 then [BACKSLASH, 0x62]
    else if c == 9 then [BACKSLASH, 0x74]
    else if c == 10 then [BACKSLASH, 0x6E]
    else if c == 12 then [BACKSLASH, 0x66]
    else if c == 13 then [BACKSLASH, 0x72]
    else [BACKSLASH, 0x75, 0x30, 0x30, HexDigit(c / 16), HexDigit(c % 16)]
  }

  /** RFC 3629 section 3: the bytes of one code point below U+10000. */
  function Utf8Unit(c: Unit): seq<Byte> {
    if c < 0x80 then [c]
    else if c < 0x800 then [0xC0 + c / 64, 0x80 + c % 64]
    else
      var upper := c / 64;
      [0xE0 + upper / 64, 0x80 + upper % 64, 0x80 + c % 64]
  }

  /** The code point of a surrogate pair. */
  function CodePoint(high: int, low: int): int {
    0x10000 + (high - 0xD800) * 1024 + (low - 0xDC00)
  }

  /** RFC 3629 section 3: the four bytes of the code point of a surrogate pair. */
  function Utf8Pair(high: Unit, low: Unit): seq<Byte>
    requires IsHigh(high) && IsLow(low)
  {
    var c := CodePoint(high, low);
    var upper := c / 64;
    var top := upper / 64;
    [0xF0 + top / 64, 0x80 + top % 64, 0x80 + upper % 64, 0x80 + c % 64]
  }

  /** UTF-8 of the first code point; a lone surrogate has none. */
  function RawChunk(s: seq<Unit>): seq<Byte>
    requires s != []
  {
    if Pair(s) then Utf8Pair(s[0], s[1])
    else if IsHigh(s[0]) || IsLow(s[0]) then []
    else Utf8Unit(s[0])
  }

  function Chunk(s: seq<Unit>): seq<Byte>
    requires s != []
  {
    if Escaped(s[0]) then Escape(s[0]) else RawChunk(s)
  }

  /** Strict UTF-8 of a well-formed sequence. */
  function Utf8(s: seq<Unit>): seq<Byte>
    decreases |s|
  {
    if s == [] then [] else RawChunk(s) + Utf8(s[Width(s)..])
  }

  /** The characters of a JSON string, escaped one by one. */
  function Body(s: seq<Unit>): seq<Byte>
    decreases |s|
  {
    if s == [] then [] else Chunk(s) + Body(s[Width(s)..])
  }

  // ---- splitting at a character boundary -----------------------------------------------------------

  /** The boundary does not fall inside a surrogate pair. */
  predicate Splits(a: seq<Unit>, b: seq<Unit>) {
    a == [] || b == [] || !(IsHigh(a[|a| - 1]) && IsLow(b[0]))
  }

  lemma HeadSplit(a: seq<Unit>, b: seq<Unit>)
    requires a != [] && Splits(a, b)
    ensures Pair(a + b) <==> Pair(a)
    ensures Width(a + b) == Width(a) && (a + b)[Width(a)..] == a[Width(a)..] + b && Splits(a[Width(a)..], b)
    ensures Chunk(a + b) == Chunk(a)
  {
    hide Utf8Pair, Utf8Unit, Escape;
  }

  lemma {:induction false} BodySplit(a: seq<Unit>, b: seq<Unit>)
    requires Splits(a, b)
    ensures Body(a + b) == Body(a) + Body(b)
    ensures WellFormed(a + b) <==> WellFormed(a) && WellFormed(b)
    decreases |a|
  {
    hide Chunk, Splits, Width, Pair;
    if a == [] {
      assert a + b == b;
    } else {
      HeadSplit(a, b);
      assert (a + b)[0] == a[0];
      BodySplit(a[Width(a)..], b);
    }
  }

  /** Without characters to escape the text is plain UTF-8. */
  lemma {:induction false} BodyIsUtf8(s: seq<Unit>)
    requires forall i :: 0 <= i < |s| ==> !Escaped(s[i])
    ensures Body(s) == Utf8(s)
    decreases |s|
  {
    if s != [] {
      BodyIsUtf8(s[Width(s)..]);
    }
  }

  // ---- decoding --------------------------------------------------------------------------------------

  function HexValue(b: Byte): Option<int> {
    if 0x30 <= b <= 0x39 then Some(b - 0x30)
    else if 0x61 <= b <= 0x66 then Some(b - 0x61 + 10)
    else if 0x41 <= b <= 0x46 then Some(b - 0x41 + 10)
    else None
  }

  predicate Continues(b: Byte) {
    0x80 <= b < 0xC0
  }

  /** Six more bits of a code point. */
  function Extend(c: int, b: Byte): int {
    c * 64 + (b as int - 0x80)
  }

  /** The units of the next character and how many bytes it took. */
  datatype Decoded = Decoded(units: seq<Unit>, length: nat)

  /** The value of four hexadecimal digits, in either case. */
  function HexUnit(b: seq<Byte>): Option<Unit> {
    if |b| >= 4 && HexValue(b[0]).Some? && HexValue(b[1]).Some? && HexValue(b[2]).Some? && HexValue(b[3]).Some? then
      Some(HexValue(b[0]).value * 4096 + HexValue(b[1]).value * 256 + HexValue(b[2]).value * 16 + HexValue(b[3]).value)
    else None
  }

  /** Every escape of RFC 8259 section 7. */
  function DecodeEscape(b: seq<Byte>): Option<Decoded>
    requires |b| >= 2
  {
    if b[1] == QUOTE || b[1] == BACKSLASH || b[1] == SLASH then Some(Decoded([b[1]], 2))
    else if b[1] == 0x62 then Some(Decoded([8], 2))
    else if b[1] == 0x74 then Some(Decoded([9], 2))
    else if b[1] == 0x6E then Some(Decoded([10], 2))
    else if b[1] == 0x66 then Some(Decoded([12], 2))
    else if b[1] == 0x72 then Some(Decoded([13], 2))
    else if b[1] == 0x75 && HexUnit(b[2..]).Some? then Some(Decoded([HexUnit(b[2..]).value], 6))
    else None
  }

  /** The next character of a JSON string: an escape, or strict UTF-8 of a character that needs none. */
  function DecodeNext(b: seq<Byte>): Option<Decoded>
    requires b != []
  {
    if b[0] == BACKSLASH then (if |b| >= 2 then DecodeEscape(b) else None)
    else if b[0] < 0x20 || b[0] == QUOTE then None
    else if b[0] < 0x80 then Some(Decoded([b[0]], 1))
    else if 0xC2 <= b[0] < 0xE0 && |b| >= 2 && Continues(b[1]) then
      Some(Decoded([Extend(b[0] as int - 0xC0, b[1])], 2))
    else if 0xE0 <= b[0] < 0xF0 && |b| >= 3 && Continues(b[1]) && Continues(b[2]) then
      DecodeThree(Extend(Extend(b[0] as int - 0xE0, b[1]), b[2]))
    else if 0xF0 <= b[0] < 0xF5 && |b| >= 4 && Continues(b[1]) && Continues(b[2]) && Continues(b[3]) then
      DecodePair(Extend(Extend(Extend(b[0] as int - 0xF0, b[1]), b[2]), b[3]))
    else None
  }

  /** Neither longer than needed nor half of a surrogate pair. */
  function DecodeThree(c: int): Option<Decoded> {
    if 0x800 <= c < 0x10000 && !IsHigh(c) && !IsLow(c) then Some(Decoded([c], 3)) else None
  }

  function DecodePair(c: int): Option<Decoded> {
    if 0x10000 <= c < 0x110000 then Some(Decoded([0xD800 + (c - 0x10000) / 1024, 0xDC00 + (c - 0x10000) % 1024], 4))
    else None
  }

  datatype Parsed<T> = Parsed(value: T, rest: seq<Byte>)

  /** Reads characters up to the closing quotation mark. */
  function ParseBody(b: seq<Byte>): Option<Parsed<seq<Unit>>>
    decreases |b|
  {
    if b == [] then None
    else if b[0] == QUOTE then Some(Parsed([], b[1..]))
    else
      match DecodeNext(b)
      case None => None
      case Some(d) =>
        if d.length == 0 || d.length > |b| then None
        else
          match ParseBody(b[d.length..])
          case None => None
          case Some(p) => Some(Parsed(d.units + p.value, p.rest))
  }

  lemma EscapeDecodes(c: Unit, tail: seq<Byte>)
    requires Escaped(c)
    ensures var b := Escape(c) + tail; b[0] != QUOTE && DecodeNext(b) == Some(Decoded([c], |Escape(c)|))
  {
  }

  lemma UnitDecodes(c: Unit, tail: seq<Byte>)
    requires !Escaped(c) && !IsHigh(c) && !IsLow(c)
    ensures var b := Utf8Unit(c) + tail; b[0] != QUOTE && DecodeNext(b) == Some(Decoded([c], |Utf8Unit(c)|))
  {
  }

  lemma PairDecodes(high: Unit, low: Unit, tail: seq<Byte>)
    requires IsHigh(high) && IsLow(low)
    ensures var b := Utf8Pair(high, low) + tail; b[0] != QUOTE && DecodeNext(b) == Some(Decoded([high, low], 4))
  {
    var c := CodePoint(high, low);
    var b := Utf8Pair(high, low) + tail;
    assert Extend(Extend(Extend(b[0] as int - 0xF0, b[1]), b[2]), b[3]) == c;
    CodePointSplits(high, low);
    hide CodePoint, Extend, DecodePair;
  }

  lemma CodePointSplits(high: Unit, low: Unit)
    requires IsHigh(high) && IsLow(low)
    ensures DecodePair(CodePoint(high, low)) == Some(Decoded([high, low], 4))
  {
    var offset := (high - 0xD800) * 1024 + (low - 0xDC00);
    assert offset / 1024 == high - 0xD800 && offset % 1024 == low - 0xDC00;
  }

  lemma ChunkDecodes(s: seq<Unit>, tail: seq<Byte>)
    requires s != [] && WellFormed(s)
    ensures var b := Chunk(s) + tail; b[0] != QUOTE && DecodeNext(b) == Some(Decoded(s[..Width(s)], |Chunk(s)|))
    ensures Chunk(s) != []
  {
    if Escaped(s[0]) {
      EscapeDecodes(s[0], tail);
      assert s[..1] == [s[0]];
    } else if Pair(s) {
      PairDecodes(s[0], s[1], tail);
      assert s[..2] == [s[0], s[1]];
    } else {
      UnitDecodes(s[0], tail);
      assert s[..1] == [s[0]];
    }
    hide DecodeNext, Escape, Utf8Pair, Utf8Unit;
  }

  /** Decoding inverts encoding, whatever follows the closing quotation mark. */
  lemma {:induction false} BodyRoundTrip(s: seq<Unit>, rest: seq<Byte>)
    requires WellFormed(s)
    ensures ParseBody(Body(s) + [QUOTE] + rest) == Some(Parsed(s, rest))
    decreases |s|
  {
    hide DecodeNext, Chunk;
    if s == [] {
      assert (Body(s) + [QUOTE] + rest)[1..] == rest;
    } else {
      var w := Width(s);
      var tail := Body(s[w..]) + [QUOTE] + rest;
      assert Body(s) + [QUOTE] + rest == Chunk(s) + tail;
      ChunkDecodes(s, tail);
      assert s == s[..w] + s[w..];
      assert (Chunk(s) + tail)[|Chunk(s)|..] == tail;
      BodyRoundTrip(s[w..], rest);
    }
  }

  // ---- nothing shorter ---------------------------------------------------------------------------------

  /** A hexadecimal digit in upper case. */
  predicate IsUpper(b: Byte) {
    0x41 <= b <= 0x46
  }

  lemma HexDigitOf(b: Byte)
    requires HexValue(b).Some? && !IsUpper(b)
    ensures HexDigit(HexValue(b).value) == b
  {
  }

  lemma HexUnitOf(b: seq<Byte>)
    requires HexUnit(b).Some? && HexUnit(b).value < 0x20
    requires !IsUpper(b[2]) && !IsUpper(b[3])
    ensures var c := HexUnit(b).value; b[..4] == [0x30, 0x30, HexDigit(c / 16), HexDigit(c % 16)]
  {
    var v0, v1, v2, v3 := HexValue(b[0]).value, HexValue(b[1]).value, HexValue(b[2]).value, HexValue(b[3]).value;
    assert v0 == 0 && v1 == 0;
    HexDigitOf(b[2]);
    HexDigitOf(b[3]);
    assert HexUnit(b).value == v2 * 16 + v3;
  }

  lemma EscapeIsShortest(b: seq<Byte>)
    requires |b| >= 2 && b[0] == BACKSLASH && DecodeEscape(b).Some?
    ensures var d := DecodeEscape(b).value;
            && d.length <= |b| && d.units != [] && |Chunk(d.units)| <= d.length
            && (|Chunk(d.units)| == d.length && (d.length == 6 ==> !IsUpper(b[4]) && !IsUpper(b[5])) ==>
                  b[..d.length] == Chunk(d.units))
  {
    var d := DecodeEscape(b).value;
    if d.length == 6 {
      var c := d.units[0];
      if |Chunk(d.units)| == 6 && !IsUpper(b[4]) && !IsUpper(b[5]) {
        HexUnitOf(b[2..]);
        assert b[..6] == [b[0], b[1]] + b[2..][..4];
      }
    } else {
      assert b[..2] == [b[0], b[1]];
    }
  }

  lemma ThreeIsUtf8(b: seq<Byte>)
    requires |b| >= 3 && 0xE0 <= b[0] < 0xF0 && Continues(b[1]) && Continues(b[2])
    ensures var c := Extend(Extend(b[0] as int - 0xE0, b[1]), b[2]);
            DecodeThree(c).Some? ==> Utf8Unit(c) == b[..3]
  {
    var c := Extend(Extend(b[0] as int - 0xE0, b[1]), b[2]);
    var two := Extend(b[0] as int - 0xE0, b[1]);
    assert c / 64 == two && c % 64 == b[2] - 0x80 && two / 64 == b[0] - 0xE0 && two % 64 == b[1] - 0x80;
    assert b[..3] == [b[0], b[1], b[2]];
  }

  lemma PairIsUtf8(b: seq<Byte>)
    requires |b| >= 4 && 0xF0 <= b[0] < 0xF5 && Continues(b[1]) && Continues(b[2]) && Continues(b[3])
    ensures var c := Extend(Extend(Extend(b[0] as int - 0xF0, b[1]), b[2]), b[3]);
            DecodePair(c).Some? ==>
              var u := DecodePair(c).value.units; IsHigh(u[0]) && IsLow(u[1]) && Utf8Pair(u[0], u[1]) == b[..4]
  {
    var two := Extend(b[0] as int - 0xF0, b[1]);
    var three := Extend(two, b[2]);
    var c := Extend(three, b[3]);
    assert c / 64 == three && c % 64 == b[3] - 0x80;
    assert three / 64 == two && three % 64 == b[2] - 0x80;
    assert two / 64 == b[0] - 0xF0 && two % 64 == b[1] - 0x80;
    if DecodePair(c).Some? {
      var u := DecodePair(c).value.units;
      assert CodePoint(u[0], u[1]) == c;
      assert b[..4] == [b[0], b[1], b[2], b[3]];
    }
  }

  /**
   * Whatever bytes a JSON parser reads as this character, the encoder's are no longer; and if they are as
   * long, they are the encoder's, but for the case of hexadecimal digits.
   */
  lemma ChunkIsShortest(b: seq<Byte>)
    requires b != [] && DecodeNext(b).Some?
    ensures var d := DecodeNext(b).value;
            && d.length <= |b| && d.units != [] && |Chunk(d.units)| <= d.length
            && (|Chunk(d.units)| == d.length && (d.length == 6 ==> !IsUpper(b[4]) && !IsUpper(b[5])) ==>
                  b[..d.length] == Chunk(d.units))
  {
    if b[0] == BACKSLASH {
      EscapeIsShortest(b);
    } else if b[0] < 0x80 {
      assert b[..1] == [b[0]];
    } else if b[0] < 0xE0 {
      assert b[..2] == [b[0], b[1]];
      assert Extend(b[0] as int - 0xC0, b[1]) / 64 == b[0] - 0xC0;
    } else if b[0] < 0xF0 {
      ThreeIsUtf8(b);
    } else {
      PairIsUtf8(b);
    }
    hide DecodeEscape, DecodeThree, DecodePair, Escape, Utf8Pair, Utf8Unit;
  }

  /** A character that need not be escaped is not: it appears as its own UTF-8. */
  lemma PlainIsRaw(c: Unit)
    requires c >= 0x20 && c != 0x22 && c != 0x5C && !IsHigh(c) && !IsLow(c)
    ensures Chunk([c]) == Utf8Unit(c) && BACKSLASH !in Chunk([c])
  {
  }

  /** What a text costs at least; each half of a surrogate pair counts half of its four bytes. */
  function Cost(s: seq<Unit>): nat {
    if s == [] then 0 else (if IsHigh(s[0]) || IsLow(s[0]) then 2 else |Chunk([s[0]])|) + Cost(s[1..])
  }

  lemma {:induction false} BodyCosts(s: seq<Unit>)
    ensures |Body(s)| <= Cost(s)
    decreases |s|
  {
    hide Escape, Utf8Unit;
    if Pair(s) {
      assert s[2..] == s[1..][1..];
      BodyCosts(s[2..]);
    } else if s != [] {
      BodyCosts(s[1..]);
    }
  }

  lemma NothingCosts()
    ensures Cost([]) == 0
  {
  }

  lemma {:induction false} CostConcat(a: seq<Unit>, b: seq<Unit>)
    ensures Cost(a + b) == Cost(a) + Cost(b)
    decreases |a|
  {
    if a == [] {
      assert a + b == b;
    } else {
      assert (a + b)[1..] == a[1..] + b;
      CostConcat(a[1..], b);
    }
  }

  lemma DecodedCosts(b: seq<Byte>)
    requires b != [] && DecodeNext(b).Some?
    ensures DecodeNext(b).value.length <= |b| && Cost(DecodeNext(b).value.units) <= DecodeNext(b).value.length
  {
    var d := DecodeNext(b).value;
    ChunkIsShortest(b);
    if |d.units| == 1 {
      assert d.units == [d.units[0]] && d.units[1..] == [];
    } else {
      assert d.units[1..][1..] == [] && d.length == 4;
    }
    hide Chunk, Extend;
  }

  /** No spelling of a text is shorter than the encoder's. */
  lemma {:induction false} BodyIsShortest(b: seq<Byte>)
    requires ParseBody(b).Some?
    ensures |Body(ParseBody(b).value.value)| + 1 + |ParseBody(b).value.rest| <= |b|
  {
    BodyCosts(ParseBody(b).value.value);
    ParsedCosts(b);
  }

  lemma {:induction false} ParsedCosts(b: seq<Byte>)
    requires ParseBody(b).Some?
    ensures Cost(ParseBody(b).value.value) + 1 + |ParseBody(b).value.rest| <= |b|
    decreases |b|
  {
    hide DecodeNext, Cost;
    if b[0] == QUOTE {
      NothingCosts();
    } else {
      var d := DecodeNext(b).value;
      DecodedCosts(b);
      ParsedCosts(b[d.length..]);
      CostConcat(d.units, ParseBody(b[d.length..]).value.value);
    }
  }

  // ---- decimal numbers -------------------------------------------------------------------------------

  const I64_MIN: int := -0x8000_0000_0000_0000
  const I64_MAX: int := 0x7FFF_FFFF_FFFF_FFFF
  const MINUS: int := 0x2D
  const PLUS: int := 0x2B

  predicate IsDigit(c: int) {
    0x30 <= c <= 0x39
  }

  function Digits(n: nat): (r: seq<Byte>)
    ensures r != [] && forall i :: 0 <= i < |r| ==> IsDigit(r[i])
  {
    if n < 10 then [0x30 + n] else Digits(n / 10) + [0x30 + n % 10]
  }

  /** The invariant decimal text of an integer. */
  function Decimal(n: int): seq<Byte> {
    if n < 0 then [MINUS] + Digits(-n) else Digits(n)
  }

  function Digit(c: int): nat
    requires IsDigit(c)
  {
    c - 0x30
  }

  function DigitsValue(s: seq<int>): nat
    requires forall i :: 0 <= i < |s| ==> IsDigit(s[i])
  {
    if s == [] then 0 else DigitsValue(s[..|s| - 1]) * 10 + Digit(s[|s| - 1])
  }

  predicate AllDigits(s: seq<int>) {
    s != [] && forall i :: 0 <= i < |s| ==> IsDigit(s[i])
  }

  /** `long.TryParse` with a leading sign allowed. */
  function TryParseLong(s: seq<int>): Option<int> {
    var signed := s != [] && (s[0] == MINUS || s[0] == PLUS);
    var digits := if signed then s[1..] else s;
    if !AllDigits(digits) then None
    else
      var n: int := if signed && s[0] == MINUS then 0 - (DigitsValue(digits) as int) else DigitsValue(digits);
      if I64_MIN <= n <= I64_MAX then Some(n) else None
  }

  lemma {:induction false} DigitsRoundTrip(n: nat)
    ensures DigitsValue(Digits(n)) == n
  {
    if n >= 10 {
      DigitsRoundTrip(n / 10);
      assert Digits(n)[..|Digits(n)| - 1] == Digits(n / 10);
    }
  }

  lemma DecimalRoundTrip(n: int)
    requires I64_MIN <= n <= I64_MAX
    ensures TryParseLong(Decimal(n)) == Some(n)
  {
    DigitsRoundTrip(if n < 0 then -n else n);
    if n < 0 {
      assert Decimal(n)[1..] == Digits(-n);
    } else {
      assert IsDigit(Decimal(n)[0]);
    }
  }

  /** How many digits the text starts with. */
  function DigitRun(b: seq<Byte>): (n: nat)
    ensures n <= |b|
  {
    if b == [] || !IsDigit(b[0]) then 0 else 1 + DigitRun(b[1..])
  }

  lemma {:induction false} DigitRunStops(digits: seq<Byte>, rest: seq<Byte>)
    requires forall i :: 0 <= i < |digits| ==> IsDigit(digits[i])
    requires rest == [] || !IsDigit(rest[0])
    ensures DigitRun(digits + rest) == |digits|
    decreases |digits|
  {
    if digits == [] {
      assert digits + rest == rest;
    } else {
      assert (digits + rest)[1..] == digits[1..] + rest;
      DigitRunStops(digits[1..], rest);
    }
  }

  lemma {:induction false} DigitsAreShortest(n: nat, digits: seq<int>)
    requires AllDigits(digits) && DigitsValue(digits) == n
    ensures |Digits(n)| <= |digits| && (|Digits(n)| == |digits| ==> Digits(n) == digits)
    decreases |digits|
  {
    var init, last := digits[..|digits| - 1], digits[|digits| - 1];
    assert digits == init + [last];
    if n >= 10 {
      assert init != [];
      assert n / 10 == DigitsValue(init) && n % 10 == Digit(last);
      DigitsAreShortest(n / 10, init);
    } else if init == [] {
      assert DigitsValue([]) == 0;
    }
  }

  /** Of all texts of an integer the decimal one is the only shortest. */
  lemma DecimalIsShortest(text: seq<int>, n: int)
    requires TryParseLong(text) == Some(n)
    ensures |Decimal(n)| <= |text| && (|Decimal(n)| == |text| ==> Decimal(n) == text)
  {
    var signed := text[0] == MINUS || text[0] == PLUS;
    var digits := if signed then text[1..] else text;
    var v := DigitsValue(digits);
    assert AllDigits(digits) && (n == v || (n + v == 0 && signed && text[0] == MINUS));
    hide TryParseLong, DigitsValue, AllDigits;
    DigitsAreShortest(v, digits);
    assert signed ==> text == [text[0]] + digits;
    if n >= 0 {
      assert Decimal(n) == Digits(v);
    }
  }
}
