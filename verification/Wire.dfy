/** The byte formats: little-endian integers, length-prefixed byte arrays and strings.
    Encoders are sequences of bytes; parsers take a value off the front of a byte sequence. */
module Wire {
  import opened Basics

  type Bytes = seq<u8>
  type Content = Sized<u8>

  /** Taking a value off the front of a byte sequence: the sequence is too short, holds something
      the receiver rejects, or yields a value and what follows it. */
  datatype Parsed<+T> = Short | Rejected | Got(value: T, rest: Bytes) {
    predicate IsFailure() { !Got? }

    function PropagateFailure<U>(): Parsed<U>
      requires !Got?
    {
      if Short? then Short else Rejected
    }

    function Extract(): (T, Bytes)
      requires Got?
    {
      (value, rest)
    }
  }

  function Pow256(n: nat): (p: int)
    ensures p > 0
  {
    if n == 0 then 1 else 256 * Pow256(n - 1)
  }

  /** The `width` low bytes of `v`, lowest first. */
  function Low(width: nat, v: nat): (bytes: Bytes)
    ensures |bytes| == width
  {
    if width == 0 then [] else [v % 256] + Low(width - 1, v / 256)
  }

  /** The integer whose bytes, lowest first, are `bytes`. */
  function Value(bytes: Bytes): (v: nat)
    ensures v < Pow256(|bytes|)
  {
    if bytes == [] then 0 else bytes[0] + 256 * Value(bytes[1..])
  }

  /** A small integer in one byte and in two, lowest first. */
  lemma LowBytes(v: u16)
    ensures v < 0x100 ==> Low(1, v) == [v]
    ensures Low(2, v) == [v % 0x100, v / 0x100]
  {
    assert Low(0, v / 0x100) == [] && Low(0, v / 0x100 / 0x100) == [];
    assert Low(1, v / 0x100) == [v / 0x100];
  }

  /** Appending a byte adds it above the bytes already there: what one turn of the reading loop does. */
  lemma {:induction false} ValueAppend(bytes: Bytes, b: u8)
    ensures Value(bytes + [b]) == Value(bytes) + b * Pow256(|bytes|)
  {
    if bytes == [] {
      assert (bytes + [b])[1..] == [];
    } else {
      assert (bytes + [b])[1..] == bytes[1..] + [b];
      ValueAppend(bytes[1..], b);
      var p := Pow256(|bytes| - 1);
      assert 256 * (b * p) == b * (256 * p);
    }
  }

  // ------------------------------------------------------------------ machine operations

  function Pow2(n: nat): (p: int)
    ensures p > 0
  {
    if n == 0 then 1 else 2 * Pow2(n - 1)
  }

  function ShiftLeft(v: nat, n: nat): nat { v * Pow2(n) }

  function ShiftRight(v: nat, n: nat): nat { if n == 0 then v else ShiftRight(v / 2, n - 1) }

  /** Bitwise or, binary digit by binary digit. */
  function Or(a: nat, b: nat): nat {
    if a == 0 then b
    else if b == 0 then a
    else (if a % 2 == 1 || b % 2 == 1 then 1 else 0) + 2 * Or(a / 2, b / 2)
  }

  /** Bitwise and, binary digit by binary digit. */
  function And(a: nat, b: nat): nat {
    if a == 0 || b == 0 then 0
    else (if a % 2 == 1 && b % 2 == 1 then 1 else 0) + 2 * And(a / 2, b / 2)
  }

  /** ORing a value in above all bits already set is adding it: what a turn of the reading loops does. */
  lemma {:induction false} OrIsAdd(r: nat, b: nat, k: nat)
    requires r < Pow2(k)
    ensures Or(r, ShiftLeft(b, k)) == r + ShiftLeft(b, k)
  {
    if k > 0 && r > 0 && b > 0 {
      var half := b * Pow2(k - 1);
      assert ShiftLeft(b, k) == 2 * half;
      OrIsAdd(r / 2, b, k - 1);
    } else if k == 0 {
      assert r == 0;
    }
  }

  /** Shifting right is taking the quotient. */
  lemma {:induction false} ShiftIsQuotient(v: nat, n: nat)
    ensures ShiftRight(v, n) == v / Pow2(n)
  {
    if n == 0 {
      assert v / 1 == v;
    } else {
      ShiftIsQuotient(v / 2, n - 1);
      QuotientOfHalf(v, Pow2(n - 1));
    }
  }

  lemma QuotientOfHalf(v: nat, p: int)
    requires p > 0
    ensures v / (2 * p) == v / 2 / p
  {
    var half, q, r := v / 2, v / 2 / p, v / 2 % p;
    assert half == q * p + r;
    assert q * (2 * p) == 2 * (q * p);
    QuotientUnique(v, 2 * p, q, v % 2 + 2 * r);
  }

  lemma QuotientUnique(v: nat, m: int, q: int, r: int)
    requires m > 0 && v == q * m + r && 0 <= r < m
    ensures v / m == q
  {
    var d := v / m - q;
    assert v % m == r - d * m;
    assert d >= 1 ==> d * m >= m;
    assert d <= -1 ==> d * m <= -m;
  }

  /** Masking the low bits is taking the remainder: what a turn of the writing loops does. */
  lemma {:induction false} MaskIsModulo(v: nat, k: nat)
    ensures And(v, Pow2(k) - 1) == v % Pow2(k)
  {
    if k == 0 {
      assert v % 1 == 0;
    } else if v == 0 {
      ModuloUnique(0, Pow2(k), 0, 0);
    } else {
      var p := Pow2(k - 1);
      var mask := 2 * p - 1;
      assert mask % 2 == 1 && mask / 2 == p - 1 && And(v, mask) == v % 2 + 2 * And(v / 2, p - 1);
      MaskIsModulo(v / 2, k - 1);
      SplitModuloTwo(v, p);
    }
  }

  lemma SplitModuloTwo(v: nat, p: int)
    requires p > 0
    ensures v % (2 * p) == v % 2 + 2 * (v / 2 % p)
  {
    var q, r := v / 2 / p, v / 2 % p;
    assert v == v % 2 + 2 * (q * p + r);
    assert v == q * (2 * p) + (v % 2 + 2 * r);
    assert r <= p - 1;
    ModuloUnique(v, 2 * p, q, v % 2 + 2 * r);
  }

  lemma {:induction false} ByteShifts(i: nat)
    ensures Pow2(8 * i) == Pow256(i)
  {
    if i > 0 {
      ByteShifts(i - 1);
      assert Pow2(8 * i) == 2 * Pow2(8 * i - 1) == 4 * Pow2(8 * i - 2) == 8 * Pow2(8 * i - 3) == 16 * Pow2(8 * i - 4);
      assert 16 * Pow2(8 * i - 4) == 32 * Pow2(8 * i - 5) == 64 * Pow2(8 * i - 6) == 128 * Pow2(8 * i - 7);
    }
  }

  /** The mask and the shift by which the writing loops take a byte off a value. */
  lemma LowByte(v: nat)
    ensures And(v, 0xFF) == v % 256 && ShiftRight(v, 8) == v / 256
  {
    ByteShifts(1);
    assert Pow256(1) == 256 * Pow256(0);
    MaskIsModulo(v, 8);
    ShiftIsQuotient(v, 8);
  }

  /** The low bytes of `v` rebuild `v` modulo the width. */
  lemma {:induction false} ValueOfLow(width: nat, v: nat)
    ensures Value(Low(width, v)) == v % Pow256(width)
  {
    if width > 0 {
      ValueOfLow(width - 1, v / 256);
      SplitModulo(v, Pow256(width - 1));
    }
  }

  lemma SplitModulo(v: nat, p: int)
    requires p > 0
    ensures v % (256 * p) == v % 256 + 256 * (v / 256 % p)
  {
    var q, r := v / 256 / p, v / 256 % p;
    assert v == v % 256 + 256 * (q * p + r);
    assert v == q * (256 * p) + (v % 256 + 256 * r);
    assert 0 <= v % 256 + 256 * r < 256 * p by {
      assert r <= p - 1;
    }
    ModuloUnique(v, 256 * p, q, v % 256 + 256 * r);
  }

  lemma ModuloUnique(v: nat, m: int, q: int, r: int)
    requires m > 0 && v == q * m + r && 0 <= r < m
    ensures v % m == r
  {
    var d := v / m - q;
    assert v % m == r - d * m;
    assert d >= 1 ==> d * m >= m;
    assert d <= -1 ==> d * m <= -m;
  }

  function ParseUint(width: nat, s: Bytes): (p: Parsed<nat>)
    ensures !p.Rejected?
  {
    if |s| < width then Short else Got(Value(s[..width]), s[width..])
  }

  /** Integer round trip; for a value that fits the width it is exact. */
  lemma UintRoundTrip(width: nat, v: nat, rest: Bytes)
    ensures ParseUint(width, Low(width, v) + rest) == Got(v % Pow256(width), rest)
    ensures v < Pow256(width) ==> ParseUint(width, Low(width, v) + rest) == Got(v, rest)
  {
    ValueOfLow(width, v);
    assert (Low(width, v) + rest)[..width] == Low(width, v);
    assert (Low(width, v) + rest)[width..] == rest;
  }

  lemma PowersOf256()
    ensures Pow256(1) == 0x100 && Pow256(2) == 0x1_0000 && Pow256(4) == 0x1_0000_0000 && Pow256(8) == U64_LIMIT
  {
    assert Pow256(2) == 256 * Pow256(1);
    assert Pow256(3) == 256 * Pow256(2);
    assert Pow256(4) == 256 * Pow256(3);
    assert Pow256(5) == 256 * Pow256(4);
    assert Pow256(6) == 256 * Pow256(5);
    assert Pow256(7) == 256 * Pow256(6);
  }

  /** A value of at most `width` bytes survives the trip, for the widths the protocol uses. */
  lemma ValueRoundTrip(width: nat, v: nat, rest: Bytes)
    requires (width == 1 && v < 0x100) || (width == 2 && v < 0x1_0000)
             || (width == 4 && v < 0x1_0000_0000) || (width == 8 && v < U64_LIMIT)
    ensures ParseUint(width, Low(width, v) + rest) == Got(v, rest)
  {
    PowersOf256();
    UintRoundTrip(width, v, rest);
  }

  /** `write_byte_array`: the length, then the bytes. */
  function EncodeBytes(c: Content): Bytes { Low(8, |c|) + c }

  function ParseBytes(s: Bytes): (p: Parsed<Content>)
    ensures !p.Rejected?
  {
    var (n, rest) :- ParseUint(8, s);
    if |rest| < n then Short
    else
      PowersOf256();
      Got(rest[..n], rest[n..])
  }

  lemma BytesRoundTrip(c: Content, rest: Bytes)
    ensures ParseBytes(EncodeBytes(c) + rest) == Got(c, rest)
  {
    assert EncodeBytes(c) + rest == Low(8, |c|) + (c + rest);
    ValueRoundTrip(8, |c|, c + rest);
    assert (c + rest)[..|c|] == c && (c + rest)[|c|..] == rest;
  }

  /** Position of the first NUL at or after `from`, or the length: where `c_str()` ends. */
  function NulFrom(s: Bytes, from: nat): (k: nat)
    requires from <= |s|
    ensures from <= k <= |s| && (k < |s| ==> s[k] == 0)
    ensures forall j :: from <= j < k ==> s[j] != 0
  {
    FirstIndex(s, (b: u8) => b == 0, from)
  }

  /** What of a string goes on the wire: everything before its first NUL. */
  function CString(s: Content): (c: Content)
    ensures c <= s && 0 !in c
    ensures c == s <==> 0 !in s
    ensures |c| < |s| ==> s[|c|] == 0
  {
    var k := NulFrom(s, 0);
    assert k < |s| ==> s[k] in s;
    s[..k]
  }

  function EncodeString(s: Content): Bytes { EncodeBytes(CString(s)) }

  /** String round trip: the reader gets the prefix before the first NUL, which is the whole
      string exactly when it has none. */
  lemma StringRoundTrip(s: Content, rest: Bytes)
    ensures ParseBytes(EncodeString(s) + rest) == Got(CString(s), rest)
    ensures ParseBytes(EncodeString(s) + rest) == Got(s, rest) <==> 0 !in s
  {
    BytesRoundTrip(CString(s), rest);
  }
}
