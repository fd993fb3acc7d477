/** The primitive byte encodings (lib/src/encode.rs): little-endian integers,
    Bitcoin's CompactSize, optional keys and optional hashes. */
module Encode {
  import opened Collections
  import opened Basics

  const U64: nat := 0x1_0000_0000_0000_0000

  /** The outcome of reading a value off the front of a byte string. An address names
      a policy it cannot read with an error of its own. */
  datatype Read<+T> = Ok(value: T, rest: Bytes) | Eof | Invalid | InvalidPolicy {
    predicate IsFailure() { !Ok? }
    function PropagateFailure<U>(): Read<U>
      requires IsFailure()
    {
      if Eof? then Eof else if Invalid? then Invalid else InvalidPolicy
    }
    function Extract(): (T, Bytes)
      requires Ok?
    {
      (value, rest)
    }
  }

  // ----- fixed-size slices and little-endian integers

  function ReadSlice(n: nat, bs: Bytes): Read<Bytes> {
    if n <= |bs| then Ok(bs[..n], bs[n..]) else Eof
  }

  /** Where the parts of a concatenation are. */
  lemma FourParts(a: Bytes, b: Bytes, c: Bytes, d: Bytes)
    ensures var bs, x, y := a + (b + (c + d)), |a| + |b|, |a| + |b| + |c|;
            bs[..|a|] == a && bs[|a|..x] == b && bs[x..y] == c && bs[y..] == d
  {
  }

  lemma Shifted(bs: Bytes, k: nat, t: Bytes, x: nat, y: nat)
    requires k <= |bs| && bs[k..] == t && x <= y <= |t|
    ensures bs[k + x..k + y] == t[x..y] && bs[k + y..] == t[y..]
  {
    assert bs[k..][x..y] == bs[k + x..k + y];
    assert bs[k..][y..] == bs[k + y..];
  }

  lemma ReadSliceBack(s: Bytes, rest: Bytes)
    ensures ReadSlice(|s|, s + rest) == Ok(s, rest)
  {
    assert (s + rest)[..|s|] == s;
  }

  function Pow256(n: nat): (r: nat)
    ensures r >= 1
  {
    if n == 0 then 1 else 256 * Pow256(n - 1)
  }

  function LE(v: nat, n: nat): (r: Bytes)
    ensures |r| == n
  {
    if n == 0 then [] else [v % 256] + LE(v / 256, n - 1)
  }

  function FromLE(b: Bytes): nat {
    if b == [] then 0 else b[0] + 256 * FromLE(b[1..])
  }

  lemma {:induction false} LEBack(v: nat, n: nat)
    requires v < Pow256(n)
    ensures FromLE(LE(v, n)) == v
  {
    if n > 0 {
      LEBack(v / 256, n - 1);
      assert LE(v, n)[1..] == LE(v / 256, n - 1);
    }
  }

  /** The byte at position `i` is the digit of weight 256^i. */
  lemma {:induction false} LEDigit(v: nat, n: nat, i: nat)
    requires i < n
    ensures LE(v, n)[i] == v / Pow256(i) % 256
  {
    if i > 0 {
      LEDigit(v / 256, n - 1, i - 1);
      DivDiv(v, Pow256(i - 1));
    }
  }

  lemma DivUnique(a: nat, b: nat, q: nat, r: nat)
    requires a == q * b + r && r < b
    ensures a / b == q
  {
    var d := a / b;
    if d < q {
      assert (q - d) * b >= b by { MulAtLeast(q - d, b); }
    } else if d > q {
      assert (d - q) * b >= b by { MulAtLeast(d - q, b); }
    }
  }

  lemma MulAtLeast(k: nat, b: nat)
    requires k >= 1
    ensures k * b >= b
  {
  }

  lemma DivDiv(v: nat, m: nat)
    requires m > 0
    ensures v / 256 / m == v / (256 * m)
  {
    var q, r := v / 256, v % 256;
    var p, s := q / m, q % m;
    assert q == p * m + s;
    assert 256 * (p * m) == p * (256 * m);
    DivUnique(v, 256 * m, p, 256 * s + r);
  }

  lemma {:induction false} FromLEBack(b: Bytes)
    ensures FromLE(b) < Pow256(|b|)
    ensures LE(FromLE(b), |b|) == b
  {
    if b != [] {
      FromLEBack(b[1..]);
      FirstDigit(b[0], FromLE(b[1..]));
      assert b == [b[0]] + b[1..];
    }
  }

  lemma FirstDigit(d: Byte, v: nat)
    ensures (d + 256 * v) % 256 == d && (d + 256 * v) / 256 == v
  {
  }

  lemma Widths()
    ensures Pow256(1) == 0x100 && Pow256(2) == 0x1_0000 && Pow256(4) == 0x1_0000_0000 && Pow256(8) == U64
  {
    assert Pow256(0) == 1 && Pow256(1) == 256 && Pow256(2) == 0x1_0000 && Pow256(3) == 0x100_0000;
    assert Pow256(4) == 0x1_0000_0000 && Pow256(5) == 0x100_0000_0000 && Pow256(6) == 0x1_0000_0000_0000;
    assert Pow256(7) == 0x100_0000_0000_0000;
  }

  function ReadLE(n: nat, bs: Bytes): Read<nat> {
    if n <= |bs| then Ok(FromLE(bs[..n]), bs[n..]) else Eof
  }

  lemma ReadLEBack(v: nat, n: nat, rest: Bytes)
    requires v < Pow256(n)
    ensures ReadLE(n, LE(v, n) + rest) == Ok(v, rest)
  {
    ReadSliceBack(LE(v, n), rest);
    LEBack(v, n);
  }

  lemma ReadLECanonical(n: nat, bs: Bytes)
    requires ReadLE(n, bs).Ok?
    ensures ReadLE(n, bs).value < Pow256(n)
    ensures bs == LE(ReadLE(n, bs).value, n) + ReadLE(n, bs).rest
  {
    LESplit(bs[..n], bs[n..]);
    assert bs[..n] + bs[n..] == bs;
  }

  lemma LESplit(front: Bytes, rest: Bytes)
    ensures FromLE(front) < Pow256(|front|) && LE(FromLE(front), |front|) + rest == front + rest
  {
    FromLEBack(front);
  }

  // ----- CompactSize

  function CompactSize(v: nat): (r: Bytes) {
    if v <= 0xFC then LE(v, 1)
    else if v <= 0xFFFF then [0xFD] + LE(v, 2)
    else if v <= 0xFFFF_FFFF then [0xFE] + LE(v, 4)
    else [0xFF] + LE(v, 8)
  }

  function ReadCompactSize(bs: Bytes): Read<nat> {
    if bs == [] then Eof
    else if bs[0] == 0xFF then
      var (x, rest) :- ReadLE(8, bs[1..]);
      if x < 0x1_0000_0000 then Invalid else Ok(x, rest)
    else if bs[0] == 0xFE then
      var (x, rest) :- ReadLE(4, bs[1..]);
      if x < 0x1_0000 then Invalid else Ok(x, rest)
    else if bs[0] == 0xFD then
      var (x, rest) :- ReadLE(2, bs[1..]);
      if x < 0xFD then Invalid else Ok(x, rest)
    else Ok(bs[0], bs[1..])
  }

  lemma CompactSizeBack(v: nat, rest: Bytes)
    requires v < U64
    ensures ReadCompactSize(CompactSize(v) + rest) == Ok(v, rest)
  {
    Widths();
    if v <= 0xFC {
      SingleByte(v, rest);
    } else if v <= 0xFFFF {
      TaggedBack(0xFD, v, 2, rest);
    } else if v <= 0xFFFF_FFFF {
      TaggedBack(0xFE, v, 4, rest);
    } else {
      TaggedBack(0xFF, v, 8, rest);
    }
  }

  lemma SingleByte(v: nat, rest: Bytes)
    requires v < 256
    ensures LE(v, 1) == [v] && (LE(v, 1) + rest)[0] == v && (LE(v, 1) + rest)[1..] == rest
  {
    assert LE(v / 256, 0) == [];
  }

  /** Behind a tag byte an integer reads back. */
  lemma TaggedBack(tag: Byte, v: nat, n: nat, rest: Bytes)
    requires v < Pow256(n)
    ensures var bs := [tag] + LE(v, n) + rest; bs[0] == tag && ReadLE(n, bs[1..]) == Ok(v, rest)
  {
    assert ([tag] + LE(v, n) + rest)[1..] == LE(v, n) + rest;
    ReadLEBack(v, n, rest);
  }

  /** A tag byte, then the value in `n` bytes, least significant first. */
  ghost predicate TaggedForm(bs: Bytes, tag: Byte, v: nat, n: nat) {
    |bs| == n + 1 && bs[0] == tag && forall i :: 0 <= i < n ==> bs[1 + i] == v / Pow256(i) % 256
  }

  lemma TaggedDigits(tag: Byte, v: nat, n: nat)
    ensures TaggedForm([tag] + LE(v, n), tag, v, n)
  {
    forall i | 0 <= i < n
      ensures ([tag] + LE(v, n))[1 + i] == v / Pow256(i) % 256
    {
      LEDigit(v, n, i);
    }
  }

  /** The four forms of a compact size. */
  lemma CompactSizeForm(v: nat)
    ensures v < 0xFD ==> CompactSize(v) == [v]
    ensures 0xFD <= v < 0x1_0000 ==> TaggedForm(CompactSize(v), 0xFD, v, 2)
    ensures 0x1_0000 <= v < 0x1_0000_0000 ==> TaggedForm(CompactSize(v), 0xFE, v, 4)
    ensures 0x1_0000_0000 <= v ==> TaggedForm(CompactSize(v), 0xFF, v, 8)
  {
    if v < 0xFD {
      SingleByte(v, []);
    } else if v < 0x1_0000 {
      TaggedDigits(0xFD, v, 2);
    } else if v < 0x1_0000_0000 {
      TaggedDigits(0xFE, v, 4);
    } else {
      TaggedDigits(0xFF, v, 8);
    }
  }

  /** The bytes that follow the first one of a compact size. */
  function TailLength(first: Byte): nat {
    if first == 0xFD then 2 else if first == 0xFE then 4 else if first == 0xFF then 8 else 0
  }

  /** Reading fails for want of bytes, or because a shorter form would have done. */
  lemma CompactSizeErrors(bs: Bytes)
    ensures ReadCompactSize(bs).Eof? <==> bs == [] || |bs| < 1 + TailLength(bs[0])
    ensures ReadCompactSize(bs).Invalid? <==>
              && bs != [] && bs[0] >= 0xFD && |bs| >= 1 + TailLength(bs[0])
              && FromLE(bs[1..1 + TailLength(bs[0])]) <
                   if bs[0] == 0xFD then 0xFD else if bs[0] == 0xFE then 0x1_0000 else 0x1_0000_0000
    ensures !ReadCompactSize(bs).InvalidPolicy?
  {
    if bs != [] && |bs| >= 1 + TailLength(bs[0]) {
      assert bs[1..][..TailLength(bs[0])] == bs[1..1 + TailLength(bs[0])];
    }
  }

  /** Canonical: whatever is accepted is exactly what would have been written. */
  lemma CompactSizeCanonical(bs: Bytes)
    requires ReadCompactSize(bs).Ok?
    ensures ReadCompactSize(bs).value < U64
    ensures bs == CompactSize(ReadCompactSize(bs).value) + ReadCompactSize(bs).rest
  {
    Widths();
    assert bs == [bs[0]] + bs[1..];
    if bs[0] < 0xFD {
      var v := bs[0];
      assert LE(v, 1) == [v] by { assert LE(v / 256, 0) == []; }
    } else {
      var n := if bs[0] == 0xFD then 2 else if bs[0] == 0xFE then 4 else 8;
      ReadLECanonical(n, bs[1..]);
      var v, rest := ReadLE(n, bs[1..]).value, ReadLE(n, bs[1..]).rest;
      assert bs == [bs[0]] + LE(v, n) + rest;
    }
  }

  // ----- keys and hashes

  /** A serialized public key: 33 bytes, an even or odd tag, and a point on the
      curve. Whether the x coordinate is on the curve is left abstract. */
  ghost predicate IsKey(onCurve: Bytes -> bool, k: Bytes) {
    |k| == 33 && (k[0] == 2 || k[0] == 3) && onCurve(k)
  }

  function ReadKey(onCurve: Bytes -> bool, bs: Bytes): Read<Bytes> {
    var (k, rest) :- ReadSlice(33, bs);
    if (k[0] == 2 || k[0] == 3) && onCurve(k) then Ok(k, rest) else Invalid
  }

  lemma ReadKeyBack(onCurve: Bytes -> bool, k: Bytes, rest: Bytes)
    requires IsKey(onCurve, k)
    ensures ReadKey(onCurve, k + rest) == Ok(k, rest)
  {
    ReadSliceBack(k, rest);
  }

  function OptKey(k: Option<Bytes>): Bytes {
    if k.Some? then k.value else [0]
  }

  /** The first byte decides; the rest of the key is read after it. */
  function ReadOptKey(onCurve: Bytes -> bool, bs: Bytes): Read<Option<Bytes>> {
    if bs == [] then Eof
    else if bs[0] == 0 then Ok(None, bs[1..])
    else
      var (tail, rest) :- ReadSlice(32, bs[1..]);
      var k := [bs[0]] + tail;
      if (k[0] == 2 || k[0] == 3) && onCurve(k) then Ok(Some(k), rest) else Invalid
  }

  /** The optional encodings: a key stands for itself, a hash follows a one, and nothing
      is a zero. */
  lemma OptionalForms(k: Bytes, h: Bytes)
    ensures OptKey(None) == [0] && OptKey(Some(k)) == k
    ensures OptHash(None) == [0]
    ensures |OptHash(Some(h))| == 1 + |h| && OptHash(Some(h))[0] == 1 && OptHash(Some(h))[1..] == h
  {
  }

  lemma OptKeyBack(onCurve: Bytes -> bool, k: Option<Bytes>, rest: Bytes)
    requires k.Some? ==> IsKey(onCurve, k.value)
    ensures ReadOptKey(onCurve, OptKey(k) + rest) == Ok(k, rest)
  {
    var bs := OptKey(k) + rest;
    if k.None? {
      assert bs[1..] == rest;
    } else {
      assert k.value == [k.value[0]] + k.value[1..];
      assert bs[1..] == k.value[1..] + rest;
      ReadSliceBack(k.value[1..], rest);
    }
  }

  /** A key, or an optional key, is read exactly if the string starts with its encoding. */
  lemma KeyExact(onCurve: Bytes -> bool, bs: Bytes, k: Bytes, rest: Bytes)
    ensures ReadKey(onCurve, bs) == Ok(k, rest) <==> IsKey(onCurve, k) && bs == k + rest
  {
    if IsKey(onCurve, k) && bs == k + rest {
      ReadKeyBack(onCurve, k, rest);
    }
  }

  lemma OptKeyExact(onCurve: Bytes -> bool, bs: Bytes, k: Option<Bytes>, rest: Bytes)
    ensures ReadOptKey(onCurve, bs) == Ok(k, rest) <==>
              (k.Some? ==> IsKey(onCurve, k.value)) && bs == OptKey(k) + rest
  {
    if (k.Some? ==> IsKey(onCurve, k.value)) && bs == OptKey(k) + rest {
      OptKeyBack(onCurve, k, rest);
    }
    if ReadOptKey(onCurve, bs) == Ok(k, rest) {
      OptKeyCanonical(onCurve, bs);
    }
  }

  lemma OptKeyCanonical(onCurve: Bytes -> bool, bs: Bytes)
    requires ReadOptKey(onCurve, bs).Ok?
    ensures var k := ReadOptKey(onCurve, bs).value;
            (k.Some? ==> IsKey(onCurve, k.value)) && bs == OptKey(k) + ReadOptKey(onCurve, bs).rest
  {
    assert bs == [bs[0]] + bs[1..];
    if bs[0] != 0 {
      assert bs[1..] == bs[1..][..32] + bs[1..][32..];
    }
  }

  function OptHash(h: Option<Bytes>): Bytes {
    if h.Some? then [1] + h.value else [0]
  }

  function ReadOptHash(bs: Bytes): Read<Option<Bytes>> {
    if bs == [] then Eof
    else if bs[0] == 0 then Ok(None, bs[1..])
    else if bs[0] == 1 then
      var (h, rest) :- ReadSlice(32, bs[1..]);
      Ok(Some(h), rest)
    else Invalid
  }

  /** Both directions: reading undoes writing, and only written bytes are read. */
  lemma OptHashExact(bs: Bytes, h: Option<Bytes>, rest: Bytes)
    ensures ReadOptHash(bs) == Ok(h, rest) <==> (h.Some? ==> |h.value| == 32) && bs == OptHash(h) + rest
  {
    if (h.Some? ==> |h.value| == 32) && bs == OptHash(h) + rest {
      OptHashBack(h, rest);
    }
    if ReadOptHash(bs) == Ok(h, rest) {
      OptHashCanonical(bs);
    }
  }

  lemma OptHashBack(h: Option<Bytes>, rest: Bytes)
    requires h.Some? ==> |h.value| == 32
    ensures ReadOptHash(OptHash(h) + rest) == Ok(h, rest)
  {
    var bs := OptHash(h) + rest;
    if h.Some? {
      assert bs[1..] == h.value + rest;
      ReadSliceBack(h.value, rest);
    } else {
      assert bs[1..] == rest;
    }
  }

  lemma OptHashCanonical(bs: Bytes)
    requires ReadOptHash(bs).Ok?
    ensures var h := ReadOptHash(bs).value; (h.Some? ==> |h.value| == 32) && bs == OptHash(h) + ReadOptHash(bs).rest
  {
    assert bs == [bs[0]] + bs[1..];
  }

  // ----- the writer and the reader

  class Writer {
    var out: Bytes

    constructor ()
      ensures out == []
    {
      out := [];
    }

    method EmitSlice(s: Bytes)
      modifies this
      ensures out == old(out) + s
    {
      out := out + s;
    }

    /** Writes the integer byte by byte, least significant first. */
    method EmitLE(v: nat, n: nat)
      modifies this
      ensures out == old(out) + LE(v, n)
    {
      var left := v;
      for i := 0 to n
        invariant out + LE(left, n - i) == old(out) + LE(v, n)
      {
        ghost var tail := LE(left / 256, n - i - 1);
        assert out + LE(left, n - i) == out + [left % 256] + tail;
        out := out + [left % 256];
        left := left / 256;
      }
      assert out + [] == out;
    }

    method EmitTagged(tag: Byte, v: nat, n: nat)
      modifies this
      ensures out == old(out) + ([tag] + LE(v, n))
    {
      EmitSlice([tag]);
      EmitLE(v, n);
    }

    method EmitCompactSize(v: nat) returns (written: nat)
      modifies this
      ensures out == old(out) + CompactSize(v)
      ensures written == |CompactSize(v)|
    {
      if v <= 0xFC {
        EmitLE(v, 1);
        written := 1;
      } else if v <= 0xFFFF {
        EmitTagged(0xFD, v, 2);
        written := 3;
      } else if v <= 0xFFFF_FFFF {
        EmitTagged(0xFE, v, 4);
        written := 5;
      } else {
        EmitTagged(0xFF, v, 8);
        written := 9;
      }
    }
  }
}
