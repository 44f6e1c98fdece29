/** ULID generation (internal/common/id.go): the 48-bit timestamp and the 80 random
    bits are packed five at a time into 26 characters of Crockford's base 32.
    The random bytes keep the source's shifts and masks on `bv8`; a right shift of
    the unsigned timestamp is written as division by a power of two and the mask
    with 0x1F as the remainder modulo 32. */
module Ulid {

  const ALPHABET: string := "0123456789ABCDEFGHJKMNPQRSTVWXYZ"

  type Digit = d: int | 0 <= d < 32
  type Uint64 = n: int | 0 <= n < 0x1_0000_0000_0000_0000

  function Char(d: Digit): char {
    ALPHABET[d]
  }

  // ── Packing ──────────────────────────────────────────────────────────────

  function TimeDigits(ms: Uint64): (ds: seq<Digit>)
    ensures |ds| == 10
  {
    [(ms / 0x2000_0000_0000) % 32, (ms / 0x100_0000_0000) % 32, (ms / 0x8_0000_0000) % 32,
     (ms / 0x4000_0000) % 32, (ms / 0x200_0000) % 32, (ms / 0x10_0000) % 32,
     (ms / 0x8000) % 32, (ms / 0x400) % 32, (ms / 0x20) % 32, ms % 32]
  }

  type Quint = q: bv8 | q < 32

  /** Five bytes become eight digits; the source writes this group out twice. */
  function GroupDigits(r0: bv8, r1: bv8, r2: bv8, r3: bv8, r4: bv8): (ds: seq<Quint>)
    ensures |ds| == 8
  {
    [(r0 >> 3) & 0x1F, (((r0 & 0x07) << 2) | (r1 >> 6)) & 0x1F, (r1 >> 1) & 0x1F,
     (((r1 & 0x01) << 4) | (r2 >> 4)) & 0x1F, (((r2 & 0x0F) << 1) | (r3 >> 7)) & 0x1F,
     (r3 >> 2) & 0x1F, (((r3 & 0x03) << 3) | (r4 >> 5)) & 0x1F, r4 & 0x1F]
  }

  function RandomDigits(rnd: seq<bv8>): (ds: seq<Quint>)
    requires |rnd| == 10
    ensures |ds| == 16
  {
    GroupDigits(rnd[0], rnd[1], rnd[2], rnd[3], rnd[4]) + GroupDigits(rnd[5], rnd[6], rnd[7], rnd[8], rnd[9])
  }

  function QuintChars(qs: seq<Quint>): (s: string)
    ensures |s| == |qs|
    ensures forall i :: 0 <= i < |qs| ==> s[i] == Char(qs[i] as int)
  {
    seq(|qs|, i requires 0 <= i < |qs| => Char(qs[i] as int))
  }

  function Chars(ds: seq<Digit>): (s: string)
    ensures |s| == |ds|
    ensures forall i :: 0 <= i < |ds| ==> s[i] == Char(ds[i])
  {
    seq(|ds|, i requires 0 <= i < |ds| => Char(ds[i]))
  }

  /** The identifier for a given clock reading and given random bytes, filled cell by cell. */
  method NewUlid(ms: Uint64, rnd: seq<bv8>) returns (id: array<char>)
    requires |rnd| == 10
    ensures fresh(id) && id.Length == 26
    ensures id[..10] == Chars(TimeDigits(ms)) && id[10..] == QuintChars(RandomDigits(rnd))
  {
    id := new char[26];
    FillTime(id, ms);
    FillRandom(id, rnd);
  }

  method FillTime(id: array<char>, ms: Uint64)
    requires id.Length == 26
    modifies id
    ensures id[..10] == Chars(TimeDigits(ms)) && id[10..] == old(id[10..])
  {
    id[0] := ALPHABET[(ms / 0x2000_0000_0000) % 32];
    id[1] := ALPHABET[(ms / 0x100_0000_0000) % 32];
    id[2] := ALPHABET[(ms / 0x8_0000_0000) % 32];
    id[3] := ALPHABET[(ms / 0x4000_0000) % 32];
    id[4] := ALPHABET[(ms / 0x200_0000) % 32];
    id[5] := ALPHABET[(ms / 0x10_0000) % 32];
    id[6] := ALPHABET[(ms / 0x8000) % 32];
    id[7] := ALPHABET[(ms / 0x400) % 32];
    id[8] := ALPHABET[(ms / 0x20) % 32];
    id[9] := ALPHABET[ms % 32];
  }

  lemma QuintCharsAppend(p: seq<Quint>, q: seq<Quint>)
    ensures QuintChars(p + q) == QuintChars(p) + QuintChars(q)
  {
  }

  lemma Assembled(cells: string, first: string, second: string)
    requires |cells| == 26 && |first| == |second| == 8
    requires forall i :: 10 <= i < 18 ==> cells[i] == first[i - 10]
    requires forall i :: 18 <= i < 26 ==> cells[i] == second[i - 18]
    ensures cells[10..] == first + second
  {
  }

  method FillRandom(id: array<char>, rnd: seq<bv8>)
    requires id.Length == 26 && |rnd| == 10
    modifies id
    ensures id[10..] == QuintChars(RandomDigits(rnd)) && id[..10] == old(id[..10])
  {
    var first := QuintChars(GroupDigits(rnd[0], rnd[1], rnd[2], rnd[3], rnd[4]));
    var second := QuintChars(GroupDigits(rnd[5], rnd[6], rnd[7], rnd[8], rnd[9]));
    FillGroup(id, 10, first);
    FillGroup(id, 18, second);
    QuintCharsAppend(GroupDigits(rnd[0], rnd[1], rnd[2], rnd[3], rnd[4]),
        GroupDigits(rnd[5], rnd[6], rnd[7], rnd[8], rnd[9]));
    Assembled(id[..], first, second);
    assert id[..10] == old(id[..10]);
  }

  method FillGroup(id: array<char>, at: nat, cs: string)
    requires at + 8 <= id.Length && |cs| == 8
    modifies id
    ensures forall i :: at <= i < at + 8 ==> id[i] == cs[i - at]
    ensures forall i :: 0 <= i < id.Length && !(at <= i < at + 8) ==> id[i] == old(id[i])
  {
    id[at] := cs[0];
    id[at + 1] := cs[1];
    id[at + 2] := cs[2];
    id[at + 3] := cs[3];
    id[at + 4] := cs[4];
    id[at + 5] := cs[5];
    id[at + 6] := cs[6];
    id[at + 7] := cs[7];
  }

  // ── Positional notation, the independent reading of digits ───────────────

  function Value(ds: seq<int>): int {
    if ds == [] then 0 else Value(ds[..|ds| - 1]) * 32 + ds[|ds| - 1]
  }

  /** First difference decides; a proper prefix is smaller. Go and SQLite order text this way. */
  predicate Before(s: seq<int>, t: seq<int>) {
    if t == [] then false
    else if s == [] then true
    else s[0] < t[0] || (s[0] == t[0] && Before(s[1..], t[1..]))
  }

  predicate DigitsOf(ds: seq<int>) {
    forall i :: 0 <= i < |ds| ==> 0 <= ds[i] < 32
  }

  predicate StringBefore(s: string, t: string) {
    if t == [] then false
    else if s == [] then true
    else s[0] < t[0] || (s[0] == t[0] && StringBefore(s[1..], t[1..]))
  }

  lemma AlphabetIncreasing(i: nat, j: nat)
    requires i < j < 32
    ensures ALPHABET[i] < ALPHABET[j]
  {
    assert forall k :: 0 <= k < 31 ==> ALPHABET[k] < ALPHABET[k + 1];
    if i + 1 < j {
      AlphabetIncreasing(i, j - 1);
    }
  }

  /** The alphabet is Crockford's: the digits and capital letters without I, L, O and U, in
      increasing order. */
  lemma AlphabetIsCrockford(c: char)
    ensures |ALPHABET| == 32
    ensures c in ALPHABET <==> ('0' <= c <= '9' || 'A' <= c <= 'Z') && c !in "ILOU"
    ensures forall i, j :: 0 <= i < j < 32 ==> ALPHABET[i] < ALPHABET[j]
  {
    forall i, j | 0 <= i < j < 32 ensures ALPHABET[i] < ALPHABET[j] {
      AlphabetIncreasing(i, j);
    }
    if ('0' <= c <= '9' || 'A' <= c <= 'Z') && c !in "ILOU" {
      AlphabetHas(c);
    }
  }

  lemma AlphabetHas(c: char)
    requires ('0' <= c <= '9' || 'A' <= c <= 'Z') && c !in "ILOU"
    ensures c in ALPHABET
  {
    assert "ILOU"[0] == 'I' && "ILOU"[1] == 'L' && "ILOU"[2] == 'O' && "ILOU"[3] == 'U';
    var k := c as int;
    var i := if k <= 57 then k - 48 else if k < 73 then k - 55 else if k < 76 then k - 56 else if k < 79 then k - 57
      else if k < 85 then k - 58 else k - 59;
    assert 0 <= i < 32;
    assert ALPHABET[i] == c;
  }

  /** Characters compare exactly as the digits they stand for. */
  lemma CharOrder(a: Digit, b: Digit)
    ensures a < b <==> Char(a) < Char(b)
    ensures a == b <==> Char(a) == Char(b)
  {
    if a < b {
      AlphabetIncreasing(a, b);
    } else if b < a {
      AlphabetIncreasing(b, a);
    }
  }

  lemma {:induction false} CharsOrder(s: seq<Digit>, t: seq<Digit>)
    requires |s| == |t|
    ensures Before(s, t) <==> StringBefore(Chars(s), Chars(t))
  {
    if s != [] {
      CharOrder(s[0], t[0]);
      CharsOrder(s[1..], t[1..]);
      assert Chars(s)[1..] == Chars(s[1..]) && Chars(t)[1..] == Chars(t[1..]);
    }
  }

  lemma CharsInjective(s: seq<Digit>, t: seq<Digit>)
    ensures s == t <==> Chars(s) == Chars(t)
  {
    if Chars(s) == Chars(t) {
      assert |s| == |t|;
      forall i | 0 <= i < |s| ensures s[i] == t[i] {
        assert Chars(s)[i] == Chars(t)[i];
        CharOrder(s[i], t[i]);
      }
    }
  }

  lemma {:induction false} BeforeLast(s: seq<int>, t: seq<int>, a: int, b: int)
    requires |s| == |t|
    ensures Before(s + [a], t + [b]) <==> Before(s, t) || (s == t && a < b)
  {
    if s != [] {
      BeforeLast(s[1..], t[1..], a, b);
      assert (s + [a])[1..] == s[1..] + [a] && (t + [b])[1..] == t[1..] + [b];
    }
  }

  /** For numerals of equal length, text order is numeric order and equal values are equal numerals. */
  lemma {:induction false} OrderIsNumeric(s: seq<int>, t: seq<int>)
    requires |s| == |t| && DigitsOf(s) && DigitsOf(t)
    ensures Before(s, t) <==> Value(s) < Value(t)
    ensures s == t <==> Value(s) == Value(t)
  {
    if s != [] {
      var n := |s| - 1;
      OrderIsNumeric(s[..n], t[..n]);
      BeforeLast(s[..n], t[..n], s[n], t[n]);
      assert s == s[..n] + [s[n]] && t == t[..n] + [t[n]];
    }
  }

  lemma ValueLast(s: seq<int>, d: int)
    ensures Value(s + [d]) == Value(s) * 32 + d
  {
    assert (s + [d])[..|s|] == s;
  }

  lemma ValueFive(s: seq<int>, a: int, b: int, c: int, d: int, e: int)
    ensures Value(s + [a, b, c, d, e]) == Value(s) * 0x200_0000 + (((a * 32 + b) * 32 + c) * 32 + d) * 32 + e
  {
    ValueLast(s, a);
    ValueLast(s + [a], b);
    ValueLast(s + [a] + [b], c);
    ValueLast(s + [a] + [b] + [c], d);
    ValueLast(s + [a] + [b] + [c] + [d], e);
    assert s + [a, b, c, d, e] == s + [a] + [b] + [c] + [d] + [e];
  }

  // ── The timestamp ────────────────────────────────────────────────────────

  lemma ValueTen(ds: seq<int>)
    requires |ds| == 10
    ensures Value(ds) == ((((ds[0] * 32 + ds[1]) * 32 + ds[2]) * 32 + ds[3]) * 32 + ds[4]) * 0x200_0000
                       + (((ds[5] * 32 + ds[6]) * 32 + ds[7]) * 32 + ds[8]) * 32 + ds[9]
  {
    var hi := [ds[0], ds[1], ds[2], ds[3], ds[4]];
    assert ds == hi + [ds[5], ds[6], ds[7], ds[8], ds[9]] && hi == [] + hi;
    ValueFive([], ds[0], ds[1], ds[2], ds[3], ds[4]);
    ValueFive(hi, ds[5], ds[6], ds[7], ds[8], ds[9]);
  }

  /** The ten leading digits spell the low fifty bits of the timestamp. */
  lemma TimeValue(ms: Uint64)
    ensures Value(TimeDigits(ms)) == ms % 0x4_0000_0000_0000
  {
    ValueTen(TimeDigits(ms));
    WholeTime(ms);
  }

  lemma WholeTime(ms: nat)
    ensures ((((ms / 0x2000_0000_0000 % 32 * 32 + ms / 0x100_0000_0000 % 32) * 32 + ms / 0x8_0000_0000 % 32) * 32
              + ms / 0x4000_0000 % 32) * 32 + ms / 0x200_0000 % 32) * 0x200_0000
          + (((ms / 0x10_0000 % 32 * 32 + ms / 0x8000 % 32) * 32 + ms / 0x400 % 32) * 32 + ms / 0x20 % 32) * 32
              + ms % 32
         == ms % 0x4_0000_0000_0000
  {
    var v := ms / 0x200_0000;
    HalfTime(ms);
    HalfTime(v);
    assert v / 0x20 == ms / 0x4000_0000 && v / 0x400 == ms / 0x8_0000_0000;
    assert v / 0x8000 == ms / 0x100_0000_0000 && v / 0x10_0000 == ms / 0x2000_0000_0000;
    assert v / 0x200_0000 == ms / 0x4_0000_0000_0000;
  }

  /** Five digits spell twenty-five bits. */
  lemma HalfTime(v: nat)
    ensures (((v / 0x10_0000 % 32 * 32 + v / 0x8000 % 32) * 32 + v / 0x400 % 32) * 32 + v / 0x20 % 32) * 32 + v % 32
         == v % 0x200_0000
  {
    var q1, q2, q3, q4, q5 := v / 0x20, v / 0x400, v / 0x8000, v / 0x10_0000, v / 0x200_0000;
    assert q2 == q1 / 32 && q3 == q2 / 32 && q4 == q3 / 32 && q5 == q4 / 32;
  }

  /** For timestamps below 2^48, the order of the first ten characters is the order of the clock. */
  lemma TimeOrder(x: Uint64, y: Uint64)
    requires x < 0x1_0000_0000_0000 && y < 0x1_0000_0000_0000
    ensures StringBefore(Chars(TimeDigits(x)), Chars(TimeDigits(y))) <==> x < y
    ensures Chars(TimeDigits(x)) == Chars(TimeDigits(y)) <==> x == y
  {
    TimeValue(x);
    TimeValue(y);
    Small(x);
    Small(y);
    NumeralOrder(TimeDigits(x), TimeDigits(y), x, y);
  }

  lemma Small(ms: nat)
    requires ms < 0x1_0000_0000_0000
    ensures ms % 0x4_0000_0000_0000 == ms
  {
  }

  lemma NumeralOrder(s: seq<Digit>, t: seq<Digit>, x: int, y: int)
    requires |s| == |t| && Value(s) == x && Value(t) == y
    ensures StringBefore(Chars(s), Chars(t)) <==> x < y
    ensures Chars(s) == Chars(t) <==> x == y
  {
    OrderIsNumeric(s, t);
    CharsOrder(s, t);
    CharsInjective(s, t);
  }

  // ── The random part ──────────────────────────────────────────────────────

  /** Bytes read as a number in base 256. */
  function Base256(bytes: seq<int>): int {
    if bytes == [] then 0 else Base256(bytes[..|bytes| - 1]) * 256 + bytes[|bytes| - 1]
  }

  function Ints(bs: seq<bv8>): (xs: seq<int>)
    ensures |xs| == |bs| && forall i :: 0 <= i < |bs| ==> xs[i] == bs[i] as int
  {
    seq(|bs|, i requires 0 <= i < |bs| => bs[i] as int)
  }

  lemma Base256Last(s: seq<int>, b: int)
    ensures Base256(s + [b]) == Base256(s) * 256 + b
  {
    assert (s + [b])[..|s|] == s;
  }

  lemma Base256Five(s: seq<int>, a: int, b: int, c: int, d: int, e: int)
    ensures Base256(s + [a, b, c, d, e]) == Base256(s) * 0x100_0000_0000 + FiveBytes(a, b, c, d, e)
  {
    Base256Last(s, a);
    Base256Last(s + [a], b);
    Base256Last(s + [a] + [b], c);
    Base256Last(s + [a] + [b] + [c], d);
    Base256Last(s + [a] + [b] + [c] + [d], e);
    assert s + [a, b, c, d, e] == s + [a] + [b] + [c] + [d] + [e];
  }

  function FiveBytes(a: int, b: int, c: int, d: int, e: int): int {
    (((a * 256 + b) * 256 + c) * 256 + d) * 256 + e
  }

  function Eight(a: int, b: int, c: int, d: int, e: int, f: int, g: int, h: int): int {
    ((((((a * 32 + b) * 32 + c) * 32 + d) * 32 + e) * 32 + f) * 32 + g) * 32 + h
  }

  function EightDigits(ds: seq<int>): int
    requires |ds| == 8
  {
    Eight(ds[0], ds[1], ds[2], ds[3], ds[4], ds[5], ds[6], ds[7])
  }

  lemma ValueEight(s: seq<int>, ds: seq<int>)
    requires |ds| == 8
    ensures Value(s + ds) == Value(s) * 0x100_0000_0000 + EightDigits(ds)
  {
    ValueFive(s, ds[0], ds[1], ds[2], ds[3], ds[4]);
    var t := s + [ds[0], ds[1], ds[2], ds[3], ds[4]];
    ValueLast(t, ds[5]);
    ValueLast(t + [ds[5]], ds[6]);
    ValueLast(t + [ds[5]] + [ds[6]], ds[7]);
    assert s + ds == t + [ds[5]] + [ds[6]] + [ds[7]];
  }

  // Masks are remainders and shifts are quotients or products.

  lemma Mask31(x: bv8)
    ensures (x & 0x1F) as int == (x as int) % 32
  {
  }

  lemma Mask1(x: bv8)
    ensures (x & 0x01) as int == (x as int) % 2
  {
  }

  lemma Mask3(x: bv8)
    ensures (x & 0x03) as int == (x as int) % 4
  {
  }

  lemma Mask7(x: bv8)
    ensures (x & 0x07) as int == (x as int) % 8
  {
  }

  lemma Mask15(x: bv8)
    ensures (x & 0x0F) as int == (x as int) % 16
  {
  }

  lemma ShiftDown(x: bv8)
    ensures (x >> 1) as int == (x as int) / 2
    ensures (x >> 2) as int == (x as int) / 4
  {
  }

  lemma ShiftMore(x: bv8)
    ensures (x >> 3) as int == (x as int) / 8
    ensures (x >> 4) as int == (x as int) / 16
  {
  }

  lemma ShiftFar(x: bv8)
    ensures (x >> 5) as int == (x as int) / 32
    ensures (x >> 6) as int == (x as int) / 64
    ensures (x >> 7) as int == (x as int) / 128
  {
  }

  lemma ShiftUp(x: bv8)
    ensures x < 16 ==> (x << 1) as int == 2 * x as int
    ensures x < 8 ==> (x << 2) as int == 4 * x as int
    ensures x < 4 ==> (x << 3) as int == 8 * x as int
    ensures x < 2 ==> (x << 4) as int == 16 * x as int
  {
  }

  lemma Sum(a: bv8, b: bv8)
    requires a < 32 && b < 32
    ensures (a + b) as int == a as int + b as int
  {
  }

  /** The four digits that straddle two bytes, as sums of their two parts. */
  lemma Straddling(x: bv8, y: bv8)
    ensures (((x & 0x07) << 2) | (y >> 6)) & 0x1F == ((x & 0x07) << 2) + (y >> 6) && (x & 0x07) < 8 && (y >> 6) < 32
    ensures (((x & 0x01) << 4) | (y >> 4)) & 0x1F == ((x & 0x01) << 4) + (y >> 4) && (x & 0x01) < 2 && (y >> 4) < 32
    ensures (((x & 0x0F) << 1) | (y >> 7)) & 0x1F == ((x & 0x0F) << 1) + (y >> 7) && (x & 0x0F) < 16 && (y >> 7) < 32
    ensures (((x & 0x03) << 3) | (y >> 5)) & 0x1F == ((x & 0x03) << 3) + (y >> 5) && (x & 0x03) < 4 && (y >> 5) < 32
    ensures ((x & 0x07) << 2) < 32 && ((x & 0x01) << 4) < 32 && ((x & 0x0F) << 1) < 32 && ((x & 0x03) << 3) < 32
  {
  }

  lemma Straddle2(x: bv8, y: bv8)
    ensures ((((x & 0x07) << 2) | (y >> 6)) & 0x1F) as int == (x as int) % 8 * 4 + (y as int) / 64
  {
    Straddling(x, y);
    Sum((x & 0x07) << 2, y >> 6);
    ShiftUp(x & 0x07);
    Mask7(x);
    ShiftFar(y);
  }

  lemma Straddle4(x: bv8, y: bv8)
    ensures ((((x & 0x01) << 4) | (y >> 4)) & 0x1F) as int == (x as int) % 2 * 16 + (y as int) / 16
  {
    Straddling(x, y);
    Sum((x & 0x01) << 4, y >> 4);
    ShiftUp(x & 0x01);
    Mask1(x);
    ShiftMore(y);
  }

  lemma Straddle1(x: bv8, y: bv8)
    ensures ((((x & 0x0F) << 1) | (y >> 7)) & 0x1F) as int == (x as int) % 16 * 2 + (y as int) / 128
  {
    Straddling(x, y);
    Sum((x & 0x0F) << 1, y >> 7);
    ShiftUp(x & 0x0F);
    Mask15(x);
    ShiftFar(y);
  }

  lemma Straddle3(x: bv8, y: bv8)
    ensures ((((x & 0x03) << 3) | (y >> 5)) & 0x1F) as int == (x as int) % 4 * 8 + (y as int) / 32
  {
    Straddling(x, y);
    Sum((x & 0x03) << 3, y >> 5);
    ShiftUp(x & 0x03);
    Mask3(x);
    ShiftFar(y);
  }

  lemma Inner(x: bv8)
    ensures ((x >> 3) & 0x1F) as int == (x as int) / 8
    ensures ((x >> 1) & 0x1F) as int == (x as int) / 2 % 32
    ensures ((x >> 2) & 0x1F) as int == (x as int) / 4 % 32
  {
    ShiftDown(x);
    ShiftMore(x);
    Mask31(x >> 3);
    Mask31(x >> 1);
    Mask31(x >> 2);
  }

  /** The digits of a group, as numbers. */
  lemma GroupInts(r0: bv8, r1: bv8, r2: bv8, r3: bv8, r4: bv8)
    ensures var a, b, c, d, e := r0 as int, r1 as int, r2 as int, r3 as int, r4 as int;
      Ints(GroupDigits(r0, r1, r2, r3, r4)) ==
        [a / 8, a % 8 * 4 + b / 64, b / 2 % 32, b % 2 * 16 + c / 16, c % 16 * 2 + d / 128, d / 4 % 32,
            d % 4 * 8 + e / 32, e % 32]
  {
    Inner(r0);
    Straddle2(r0, r1);
    Inner(r1);
    Straddle4(r1, r2);
    Straddle1(r2, r3);
    Inner(r3);
    Straddle3(r3, r4);
    Mask31(r4);
  }

  lemma SplitB(b: int)
    ensures b == b / 64 * 64 + b / 2 % 32 * 2 + b % 2
  {
    assert b / 64 == b / 2 / 32;
  }

  lemma SplitD(d: int)
    ensures d == d / 128 * 128 + d / 4 % 32 * 4 + d % 4
  {
    assert d / 128 == d / 4 / 32;
  }

  lemma Regroup(a: int, b: int, c: int, d: int, e: int)
    ensures Eight(a / 8, a % 8 * 4 + b / 64, b / 2 % 32, b % 2 * 16 + c / 16, c % 16 * 2 + d / 128, d / 4 % 32,
                  d % 4 * 8 + e / 32, e % 32) == FiveBytes(a, b, c, d, e)
  {
    SplitB(b);
    SplitD(d);
    Parts(a / 8, a % 8, b / 64, b / 2 % 32, b % 2, c / 16, c % 16, d / 128, d / 4 % 32, d % 4, e / 32, e % 32);
  }

  lemma Parts(a1: int, a0: int, b2: int, b1: int, b0: int, c1: int, c0: int, d2: int, d1: int, d0: int, e1: int,
      e0: int)
    ensures Eight(a1, a0 * 4 + b2, b1, b0 * 16 + c1, c0 * 2 + d2, d1, d0 * 8 + e1, e0)
         == FiveBytes(a1 * 8 + a0, b2 * 64 + b1 * 2 + b0, c1 * 16 + c0, d2 * 128 + d1 * 4 + d0, e1 * 32 + e0)
  {
  }

  lemma GroupRegroup(ds: seq<int>, a: int, b: int, c: int, d: int, e: int)
    requires ds == [a / 8, a % 8 * 4 + b / 64, b / 2 % 32, b % 2 * 16 + c / 16, c % 16 * 2 + d / 128, d / 4 % 32,
                    d % 4 * 8 + e / 32, e % 32]
    ensures EightDigits(ds) == FiveBytes(a, b, c, d, e)
  {
    Regroup(a, b, c, d, e);
  }

  /** Eight digits in base 32 are five bytes in base 256. */
  lemma GroupValue(r0: bv8, r1: bv8, r2: bv8, r3: bv8, r4: bv8)
    ensures EightDigits(Ints(GroupDigits(r0, r1, r2, r3, r4)))
         == FiveBytes(r0 as int, r1 as int, r2 as int, r3 as int, r4 as int)
  {
    GroupInts(r0, r1, r2, r3, r4);
    GroupRegroup(Ints(GroupDigits(r0, r1, r2, r3, r4)), r0 as int, r1 as int, r2 as int, r3 as int, r4 as int);
  }

  lemma Groups(rnd: seq<bv8>)
    requires |rnd| == 10
    ensures RandomDigits(rnd)[..8] == GroupDigits(rnd[0], rnd[1], rnd[2], rnd[3], rnd[4])
    ensures RandomDigits(rnd)[8..] == GroupDigits(rnd[5], rnd[6], rnd[7], rnd[8], rnd[9])
  {
  }

  lemma ValueSixteen(hi: seq<int>, lo: seq<int>)
    requires |hi| == |lo| == 8
    ensures Value(hi + lo) == EightDigits(hi) * 0x100_0000_0000 + EightDigits(lo)
  {
    assert [] + hi == hi;
    ValueEight([], hi);
    ValueEight(hi, lo);
  }

  lemma RandomInts(rnd: seq<bv8>)
    requires |rnd| == 10
    ensures Ints(RandomDigits(rnd)) == Ints(GroupDigits(rnd[0], rnd[1], rnd[2], rnd[3], rnd[4]))
                                     + Ints(GroupDigits(rnd[5], rnd[6], rnd[7], rnd[8], rnd[9]))
  {
  }

  /** The sixteen characters spell, in base 32, the number the ten bytes spell in base 256. */
  lemma RandomValue(rnd: seq<bv8>)
    requires |rnd| == 10
    ensures Value(Ints(RandomDigits(rnd))) == Base256(Ints(rnd))
  {
    var hi := Ints(GroupDigits(rnd[0], rnd[1], rnd[2], rnd[3], rnd[4]));
    var lo := Ints(GroupDigits(rnd[5], rnd[6], rnd[7], rnd[8], rnd[9]));
    RandomInts(rnd);
    GroupValue(rnd[0], rnd[1], rnd[2], rnd[3], rnd[4]);
    GroupValue(rnd[5], rnd[6], rnd[7], rnd[8], rnd[9]);
    TwoGroups(hi, lo, Ints(rnd));
  }

  lemma TwoGroups(hi: seq<int>, lo: seq<int>, r: seq<int>)
    requires |hi| == |lo| == 8 && |r| == 10
    requires EightDigits(hi) == FiveBytes(r[0], r[1], r[2], r[3], r[4])
    requires EightDigits(lo) == FiveBytes(r[5], r[6], r[7], r[8], r[9])
    ensures Value(hi + lo) == Base256(r)
  {
    ValueSixteen(hi, lo);
    TenBytes(r);
  }

  lemma TenBytes(r: seq<int>)
    requires |r| == 10
    ensures Base256(r) == FiveBytes(r[0], r[1], r[2], r[3], r[4]) * 0x100_0000_0000
        + FiveBytes(r[5], r[6], r[7], r[8], r[9])
  {
    var hi, lo := [r[0], r[1], r[2], r[3], r[4]], [r[5], r[6], r[7], r[8], r[9]];
    assert r == hi + lo;
    assert [] + hi == hi;
    Base256Five([], r[0], r[1], r[2], r[3], r[4]);
    Base256Five(hi, r[5], r[6], r[7], r[8], r[9]);
  }

  /** The five bytes that eight digits were made from. */
  function DecodeGroup(ds: seq<bv8>): (bytes: seq<bv8>)
    requires |ds| == 8
    ensures |bytes| == 5
  {
    [(ds[0] << 3) | (ds[1] >> 2), ((ds[1] & 0x03) << 6) | (ds[2] << 1) | (ds[3] >> 4),
     ((ds[3] & 0x0F) << 4) | (ds[4] >> 1), ((ds[4] & 0x01) << 7) | (ds[5] << 2) | (ds[6] >> 3),
     ((ds[6] & 0x07) << 5) | ds[7]]
  }

  lemma GroupRoundTrip(r0: bv8, r1: bv8, r2: bv8, r3: bv8, r4: bv8, ds: seq<Quint>)
    requires ds == GroupDigits(r0, r1, r2, r3, r4)
    ensures DecodeGroup(ds) == [r0, r1, r2, r3, r4]
  {
  }

  lemma RandomRoundTrip(rnd: seq<bv8>)
    requires |rnd| == 10
    ensures DecodeGroup(RandomDigits(rnd)[..8]) + DecodeGroup(RandomDigits(rnd)[8..]) == rnd
  {
    Groups(rnd);
    GroupRoundTrip(rnd[0], rnd[1], rnd[2], rnd[3], rnd[4], RandomDigits(rnd)[..8]);
    GroupRoundTrip(rnd[5], rnd[6], rnd[7], rnd[8], rnd[9], RandomDigits(rnd)[8..]);
  }

  lemma QuintCharsInjective(s: seq<Quint>, t: seq<Quint>)
    requires QuintChars(s) == QuintChars(t)
    ensures s == t
  {
    assert |s| == |t|;
    forall i | 0 <= i < |s| ensures s[i] == t[i] {
      assert QuintChars(s)[i] == QuintChars(t)[i];
      CharOrder(s[i] as int, t[i] as int);
    }
  }

  /** Two identifiers coincide only if both the clock reading and all random bytes do. */
  lemma UlidInjective(x: Uint64, y: Uint64, rx: seq<bv8>, ry: seq<bv8>)
    requires x < 0x1_0000_0000_0000 && y < 0x1_0000_0000_0000 && |rx| == |ry| == 10
    requires Chars(TimeDigits(x)) + QuintChars(RandomDigits(rx)) == Chars(TimeDigits(y)) + QuintChars(RandomDigits(ry))
    ensures x == y && rx == ry
  {
    var a, b, p, q := Chars(TimeDigits(x)), Chars(TimeDigits(y)), QuintChars(RandomDigits(rx)),
        QuintChars(RandomDigits(ry));
    assert a == (a + p)[..10] && b == (b + q)[..10] && p == (a + p)[10..] && q == (b + q)[10..];
    TimeOrder(x, y);
    QuintCharsInjective(RandomDigits(rx), RandomDigits(ry));
    RandomRoundTrip(rx);
    RandomRoundTrip(ry);
  }
}
