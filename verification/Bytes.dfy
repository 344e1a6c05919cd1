/** Little-endian integers and packed f32 arrays. */
module Bytes {
  import opened Common

  type Byte = b: int | 0 <= b < 256

  function Pow256(w: nat): (p: nat)
    ensures p > 0
  {
    if w == 0 then 1 else 256 * Pow256(w - 1)
  }

  /** The w-byte little-endian form of n. */
  function Le(n: nat, w: nat): (b: seq<Byte>)
    ensures |b| == w
  {
    if w == 0 then [] else [n % 256] + Le(n / 256, w - 1)
  }

  function FromLe(b: seq<Byte>): nat {
    if |b| == 0 then 0 else b[0] + 256 * FromLe(b[1..])
  }

  lemma {:induction false} LeRoundTrip(n: nat, w: nat)
    requires n < Pow256(w)
    ensures FromLe(Le(n, w)) == n
  {
    if w > 0 {
      LeRoundTrip(n / 256, w - 1);
      assert Le(n, w)[1..] == Le(n / 256, w - 1);
    }
  }

  // ------------------------------------------------------------------ slices

  /** `s[at:at + n]`. */
  function Slice(s: seq<Byte>, at: nat, n: nat): (r: seq<Byte>)
    requires at + n <= |s|
    ensures |r| == n
  {
    s[at..at + n]
  }

  lemma {:induction false} SliceAt(s: seq<Byte>, at: nat, n: nat, k: nat)
    requires at + n <= |s| && k < n
    ensures Slice(s, at, n)[k] == s[at + k]
  {
  }

  lemma {:induction false} SliceOfSlice(s: seq<Byte>, at: nat, n: nat, off: nat, w: nat)
    requires at + n <= |s| && off + w <= n
    ensures Slice(Slice(s, at, n), off, w) == Slice(s, at + off, w)
  {
    var a, b := Slice(Slice(s, at, n), off, w), Slice(s, at + off, w);
    forall k | 0 <= k < w
      ensures a[k] == b[k]
    {
      SliceAt(Slice(s, at, n), off, w, k);
      SliceAt(s, at, n, off + k);
      SliceAt(s, at + off, w, k);
    }
  }

  lemma {:induction false} SliceLeft(a: seq<Byte>, b: seq<Byte>, at: nat, n: nat)
    requires at + n <= |a|
    ensures Slice(a + b, at, n) == Slice(a, at, n)
  {
  }

  lemma {:induction false} SliceRight(a: seq<Byte>, b: seq<Byte>, at: nat, n: nat)
    requires |a| <= at && at + n <= |a| + |b|
    ensures Slice(a + b, at, n) == Slice(b, at - |a|, n)
  {
    var x, y := Slice(a + b, at, n), Slice(b, at - |a|, n);
    forall k | 0 <= k < n
      ensures x[k] == y[k]
    {
      SliceAt(a + b, at, n, k);
      SliceAt(b, at - |a|, n, k);
    }
  }

  lemma {:induction false} SliceWhole(s: seq<Byte>)
    ensures Slice(s, 0, |s|) == s
  {
  }

  /** The bytes of `part` lie in `s` from position `at` on. */
  ghost predicate Holds(s: seq<Byte>, at: nat, part: seq<Byte>) {
    at + |part| <= |s| && Slice(s, at, |part|) == part
  }

  lemma {:induction false} HoldsMeans(s: seq<Byte>, at: nat, part: seq<Byte>)
    requires Holds(s, at, part)
    ensures at + |part| <= |s| && Slice(s, at, |part|) == part
  {
  }

  lemma {:induction false} HoldsPart(s: seq<Byte>, at: nat, part: seq<Byte>, off: nat, w: nat)
    requires Holds(s, at, part) && off + w <= |part|
    ensures Holds(s, at + off, Slice(part, off, w))
  {
    HoldsMeans(s, at, part);
    SliceOfSlice(s, at, |part|, off, w);
    hide Slice;
  }

  const U32_LIMIT: int := 0x1_0000_0000
  const U64_LIMIT: int := 0x1_0000_0000_0000_0000

  lemma {:induction false} Limits()
    ensures Pow256(4) == U32_LIMIT && Pow256(8) == U64_LIMIT
  {
    assert Pow256(1) == 256 && Pow256(2) == 0x1_0000;
    assert Pow256(3) == 0x100_0000 && Pow256(4) == 0x1_0000_0000;
    assert Pow256(5) == 0x100_0000_0000 && Pow256(6) == 0x1_0000_0000_0000;
    assert Pow256(7) == 0x100_0000_0000_0000;
  }

  // -------------------------------------------------------------- f32 arrays

  type Pattern = p: int | 0 <= p < 0x1_0000_0000

  /** How a real is stored in a 32-bit float and read back; nothing is assumed of the rounding. */
  datatype F32 = F32(pack: real -> Pattern, unpack: Pattern -> real) {
    function Stored(x: real): real {
      unpack(pack(x))
    }
  }

  /** `struct.pack("<Nf", ...)`. */
  function F32Bytes(c: F32, values: seq<real>): (b: seq<Byte>)
    ensures |b| == 4 * |values|
  {
    if |values| == 0 then []
    else F32Bytes(c, values[..|values| - 1]) + Le(c.pack(values[|values| - 1]), 4)
  }

  /** `struct.unpack("<Nf", ...)`. */
  function ReadF32s(c: F32, b: seq<Byte>, count: nat): (v: seq<real>)
    requires 4 * count <= |b|
    ensures |v| == count
  {
    seq(count, i requires 0 <= i < count => ReadF32At(c, b, i))
  }

  function ReadF32At(c: F32, b: seq<Byte>, i: nat): real
    requires 4 * i + 4 <= |b|
  {
    var word := FromLe(b[4 * i..4 * i + 4]);
    FromLeBound(b[4 * i..4 * i + 4]);
    Limits();
    c.unpack(word)
  }

  lemma {:induction false} FromLeBound(b: seq<Byte>)
    ensures FromLe(b) < Pow256(|b|)
  {
    if |b| > 0 {
      FromLeBound(b[1..]);
    }
  }

  function StoredAll(c: F32, values: seq<real>): (v: seq<real>)
    ensures |v| == |values|
  {
    seq(|values|, i requires 0 <= i < |values| => c.Stored(values[i]))
  }

  lemma {:induction false} F32RoundTripAt(c: F32, values: seq<real>, rest: seq<Byte>, i: nat)
    requires i < |values|
    ensures ReadF32At(c, F32Bytes(c, values) + rest, i) == c.Stored(values[i])
  {
    var n := |values| - 1;
    var init, last := F32Bytes(c, values[..n]), Le(c.pack(values[n]), 4);
    var b := F32Bytes(c, values) + rest;
    if i < n {
      F32RoundTripAt(c, values[..n], last + rest, i);
      assert b == init + (last + rest);
    } else {
      assert b[4 * i..4 * i + 4] == last;
      Limits();
      LeRoundTrip(c.pack(values[n]), 4);
    }
  }

  /** Reading back an array of f32 gives every value as stored. */
  lemma {:induction false} F32RoundTrip(c: F32, values: seq<real>, rest: seq<Byte>)
    ensures ReadF32s(c, F32Bytes(c, values) + rest, |values|) == StoredAll(c, values)
  {
    forall i | 0 <= i < |values|
      ensures ReadF32At(c, F32Bytes(c, values) + rest, i) == c.Stored(values[i])
    {
      F32RoundTripAt(c, values, rest, i);
    }
  }
}
