module QuantLayout {
  // Where a quantised tensor keeps each weight: which nibble or byte, with which scale, and where that scale is.

  import opened Common
  import opened Bytes
  import opened Quant
  import opened QuantCodec
  import opened TensorPlan
  import opened FileMap
  import Layout

  // ------------------------------------------------------------ what is stored

  /** Number k of a packed f32 array. */
  function Number(f: F32, data: seq<Byte>, k: nat): real
    requires 4 * k + 4 <= |data|
  {
    f.unpack(Word(data, 4 * k))
  }

  /** The low nibble of byte e / 2 for even e, the high one for odd e, holds q in two's complement. */
  ghost predicate NibbleAt(data: seq<Byte>, e: int, q: int) {
    0 <= e && e / 2 < |data| && (if e % 2 == 0 then data[e / 2] % 16 else data[e / 2] / 16) == if q < 0 then q + 16 else q
  }

  /** Four bytes from p on hold the pattern x. */
  ghost predicate NumberAt(data: seq<Byte>, p: int, x: int) {
    0 <= p && p + 4 <= |data| && Word(data, p) == x
  }

  /** The scale of a group of n numbers: the largest magnitude takes the highest level, and 1.0 for zeros. */
  ghost predicate ScaleOf(s: real, w: nat -> real, n: nat, levels: int) {
    && s > 0.0
    && (forall k: nat :: k < n ==> Abs(w(k)) <= s * levels as real)
    && ((exists k: nat :: k < n && Abs(w(k)) == s * levels as real) || (s == 1.0 && forall k: nat :: k < n ==> w(k) == 0.0))
  }

  /** The nearest integer, on a tie the even one. */
  ghost predicate NearestEven(q: int, x: real) {
    Abs(q as real - x) <= 0.5 && (Abs(q as real - x) == 0.5 ==> q % 2 == 0)
  }

  /** The nearest integer, on a tie the one further from zero. */
  ghost predicate NearestOuter(q: int, x: real) {
    Abs(q as real - x) <= 0.5 && (Abs(q as real - x) == 0.5 ==> Abs(q as real) > Abs(x))
  }

  lemma {:induction false} EvenMeans(x: real)
    ensures NearestEven(RoundHalfEven(x), x)
  {
  }

  lemma {:induction false} OuterMeans(x: real)
    ensures NearestOuter(RoundAway(x), x)
  {
    var f := x.Floor;
    if x >= 0.0 {
      FloorOfInt(f);
    } else {
      FloorOfInt(-f);
    }
  }

  lemma {:induction false} ScaleMeans(group: seq<real>, w: nat -> real, levels: int)
    requires levels > 0 && forall k: nat :: k < |group| ==> group[k] == w(k)
    ensures ScaleOf(ScaleFor(MaxAbs(group), levels), w, |group|, levels)
  {
    hide *;
    var m := MaxAbs(group);
    if m > 0.0 {
      ScaleTimesLevels(m, levels);
      var k :| 0 <= k < |group| && Abs(group[k]) == m;
      ScaleFound(ScaleFor(m, levels), w, |group|, levels, m, k);
    } else {
      OneByLevels(levels);
      ZeroScale(w, |group|, levels);
    }
  }

  lemma {:induction false} ScaleFound(s: real, w: nat -> real, n: nat, levels: int, m: real, k: nat)
    requires s > 0.0 && s * levels as real == m
    requires (forall i: nat :: i < n ==> Abs(w(i)) <= m) && k < n && Abs(w(k)) == m
    ensures ScaleOf(s, w, n, levels)
  {
    hide Abs;
  }

  lemma {:induction false} ZeroScale(w: nat -> real, n: nat, levels: int)
    requires levels > 0 && forall i: nat :: i < n ==> Abs(w(i)) <= 0.0
    ensures ScaleOf(1.0, w, n, levels)
  {
  }

  lemma {:induction false} OneByLevels(levels: int)
    requires levels > 0
    ensures ScaleFor(0.0, levels) == 1.0
  {
  }

  lemma {:induction false} PackedNumber(c: F32, values: seq<real>, i: nat)
    requires i < |values|
    ensures NumberAt(F32Bytes(c, values), 4 * i, c.pack(values[i]))
  {
    var n := |values| - 1;
    var init, last := F32Bytes(c, values[..n]), Le(c.pack(values[n]), 4);
    assert F32Bytes(c, values) == init + last;
    if i < n {
      PackedNumber(c, values[..n], i);
    } else {
      Limits();
      LeRoundTrip(c.pack(values[n]), 4);
      WordIs(last, 0);
      SliceWhole(last);
    }
  }

  lemma {:induction false} NumberMeans(f: F32, data: seq<Byte>, count: nat, k: nat)
    requires 4 * count <= |data| && k < count
    ensures ReadF32s(f, data, count)[k] == Number(f, data, k)
  {
    WordIs(data, 4 * k);
    assert Slice(data, 4 * k, 4) == data[4 * k..4 * k + 4];
  }

  // ------------------------------------------------------------ the weights

  ghost predicate TwoDimensional(t: Tensor) {
    F32Sized(t) && |t.shape| == 2
  }

  /** Weight (i, o) of an f32 tensor: input i, output o. */
  function WeightAt(f: F32, t: Tensor, i: nat, o: nat): real
    requires |t.shape| == 2 && t.shape[1] >= 0
  {
    var k := i * t.shape[1] + o;
    if 0 <= k && 4 * k + 4 <= |t.data| then Number(f, t.data, k) else 0.0
  }

  /** n weights of output o, from input `first` on. */
  function WeightsFrom(f: F32, t: Tensor, first: nat, o: nat): nat -> real
    requires |t.shape| == 2 && t.shape[1] >= 0
  {
    (k: nat) => WeightAt(f, t, first + k, o)
  }

  /** The writer's view: one row per output. */
  function Rows(f: F32, t: Tensor): (v: seq<real>)
    requires TwoDimensional(t)
    ensures |v| == t.shape[0] * t.shape[1] == t.shape[1] * t.shape[0]
  {
    ProductOfTwo(t.shape);
    Layout.Transpose(ReadF32s(f, t.data, Product(t.shape)), t.shape[0], t.shape[1])
  }

  lemma {:induction false} RowsMean(f: F32, t: Tensor, i: nat, o: nat)
    requires TwoDimensional(t) && i < t.shape[0] && o < t.shape[1]
    ensures 0 <= o * t.shape[0] + i < |Rows(f, t)| && Rows(f, t)[o * t.shape[0] + i] == WeightAt(f, t, i, o)
  {
    var d, n := t.shape[0], t.shape[1];
    ProductOfTwo(t.shape);
    var values := ReadF32s(f, t.data, Product(t.shape));
    Layout.TransposeAt(values, d, n, i, o);
    FlatIndex(o, i, n, d);
    NumberMeans(f, t.data, Product(t.shape), i * n + o);
    hide Layout.Transpose;
    hide ReadF32s;
    hide Number;
  }

  // --------------------------------------------------------------------- q4

  /** What the q4 branch makes of a tensor. */
  lemma {:induction false} Q4Unfolds(f: F32, t: Tensor)
    requires TwoDimensional(t) && t.name != "tok_embeddings.weight" && t.shape[0] >= 32 && t.shape[0] % 32 == 0
    ensures var d, n := t.shape[0], t.shape[1];
            && |Rows(f, t)| == (n * (d / 32)) * 32 && |Rows(f, t)| % 2 == 0
            && Quantize(f, FormatQ4, t) == Tensor(t.name, [n, d], 3, Q4Data(f, Rows(f, t), n * (d / 32), 32), 32)
  {
    ProductOfTwo(t.shape);
    TotalGroups(t.shape[1], t.shape[0] / 32, 32, t.shape[0]);
    HalfSize(t.shape[1] * (t.shape[0] / 32), 32);
    hide Q4Data;
    hide Q8Data;
    hide ReadF32s;
    hide Layout.Transpose;
  }

  /** The two nibbles of a byte. */
  lemma {:induction false} NibbleMeans(codes: seq<int>, e: nat)
    requires |codes| % 2 == 0 && e < |codes| && -8 <= codes[e] < 8
    ensures NibbleAt(Pack4(codes), e, codes[e])
  {
    var lo, hi := codes[2 * (e / 2)], codes[2 * (e / 2) + 1];
    assert Pack4(codes)[e / 2] == PackPair(lo, hi);
    SplitByte(Nibble(lo), Nibble(hi));
  }

  lemma {:induction false} SplitByte(lo: int, hi: int)
    requires 0 <= lo < 16 && 0 <= hi < 16
    ensures (lo + 16 * hi) % 16 == lo && (lo + 16 * hi) / 16 == hi
  {
  }

  /** The group of 32 that place o * d + i falls into holds the weights of output o from input 32 * b on, b = i / 32. */
  lemma {:induction false} GroupWeights(f: F32, t: Tensor, d: nat, n: nat, o: nat, i: nat, b: nat)
    requires TwoDimensional(t) && t.shape == [d, n] && o < n && i < d && d % 32 == 0 && 32 * b <= i < 32 * b + 32
    ensures var rows, groups, g := Rows(f, t), n * (d / 32), (o * d + i) / 32;
            && 0 <= g < groups && |rows| == groups * 32
            && forall k: nat :: k < 32 ==> GroupOf(rows, 32, groups, g)[k] == WeightAt(f, t, 32 * b + k, o)
  {
    hide *;
    GroupPlace(d, n, o, i, b);
    var rows, groups, g := Rows(f, t), n * (d / 32), (o * d + i) / 32;
    forall k: nat | k < 32
      ensures GroupOf(rows, 32, groups, g)[k] == WeightAt(f, t, 32 * b + k, o)
    {
      RowsMean(f, t, 32 * b + k, o);
      GroupElement(rows, groups, 32, g, k, g * 32 + k);
    }
  }

  lemma {:induction false} GroupPlace(d: nat, n: nat, o: nat, i: nat, b: nat)
    requires o < n && i < d && d % 32 == 0 && 32 * b <= i < 32 * b + 32
    ensures var groups, g := n * (d / 32), (o * d + i) / 32;
            && 0 <= g < groups && g * 32 == o * d + 32 * b && g * 32 + 32 <= groups * 32 == n * d && 32 * b + 32 <= d
  {
    var perRow := d / 32;
    assert d == perRow * 32 && i / 32 == b;
    ScalePosition(o, i, n, perRow, 32, d);
    TotalGroups(n, perRow, 32, d);
    GroupStart(o, perRow, b, d);
  }

  lemma {:induction false} GroupStart(o: nat, groups: nat, g: nat, d: nat)
    requires d == groups * 32
    ensures (o * groups + g) * 32 == o * d + 32 * g
  {
    MulAssoc(o, groups, 32);
  }

  lemma {:induction false} InGroup(rows: seq<real>, gs: nat, groups: nat, e: nat)
    requires |rows| == groups * gs && e < |rows|
    ensures gs > 0 && e / gs < groups && 0 <= e % gs < gs && GroupOf(rows, gs, groups, e / gs)[e % gs] == rows[e]
  {
    FlatSplit(e, groups, gs);
    var g, i := e / gs, e % gs;
    hide *;
    GroupElement(rows, groups, gs, g, i, e);
  }

  /** The code of element e. */
  lemma {:induction false} CodeMeans(sch: Scheme, rows: seq<real>, groups: nat, e: nat, w: nat -> real) returns (s: real, q: int)
    requires |rows| == groups * sch.Group() && e < |rows|
    requires sch.Group() > 0 && e / sch.Group() < groups
    requires forall k: nat :: k < sch.Group() ==> GroupOf(rows, sch.Group(), groups, e / sch.Group())[k] == w(k)
    ensures s == Scales(sch, rows, groups)[e / sch.Group()] && q == Codes(sch, rows, groups)[e]
    ensures ScaleOf(s, w, sch.Group(), sch.Levels())
    ensures q == sch.Round(rows[e] / s) && -sch.Levels() <= q <= sch.Levels()
  {
    var g := e / sch.Group();
    var group := GroupOf(rows, sch.Group(), groups, g);
    s, q := Scale(sch, rows, groups, g), Code(sch, rows, groups, e);
    InGroup(rows, sch.Group(), groups, e);
    ScaleMeans(group, w, sch.Levels());
    assert Abs(rows[e]) <= MaxAbs(group) && s == ScaleFor(MaxAbs(group), sch.Levels());
    CodeUnclamped(sch, rows[e], MaxAbs(group), s);
    hide ScaleOf;
    hide MaxAbs;
    hide CodeFor;
    hide ScaleFor;
    hide GroupOf;
  }

  lemma {:induction false} Q4Parts(f: F32, rows: seq<real>, groups: nat, e: nat)
    requires |rows| == groups * 32 && |rows| % 2 == 0 && e < |rows|
    ensures |rows| == groups * Q4(32).Group() && e / 32 < groups
    ensures var codes, scales := Codes(Q4(32), rows, groups), Scales(Q4(32), rows, groups);
            && |codes| == |rows| && |scales| == groups && -7 <= codes[e] <= 7
            && Q4Data(f, rows, groups, 32) == Pack4(codes) + F32Bytes(f, scales)
            && |Pack4(codes)| == |rows| / 2 && |F32Bytes(f, scales)| == 4 * groups
  {
    hide Codes;
    hide Scales;
    hide Pack4;
    hide F32Bytes;
  }

  lemma {:induction false} Q4Bytes(f: F32, rows: seq<real>, groups: nat, e: nat)
    requires |rows| == groups * 32 && |rows| % 2 == 0 && e < |rows|
    ensures var data := Q4Data(f, rows, groups, 32);
            && |data| == |rows| / 2 + 4 * groups && e / 32 < groups
            && NibbleAt(data, e, Codes(Q4(32), rows, groups)[e])
            && NumberAt(data, |rows| / 2 + 4 * (e / 32), f.pack(Scales(Q4(32), rows, groups)[e / 32]))
  {
    hide *;
    Q4Parts(f, rows, groups, e);
    var codes, scales := Codes(Q4(32), rows, groups), Scales(Q4(32), rows, groups);
    NibbleMeans(codes, e);
    NibbleKept(Pack4(codes), F32Bytes(f, scales), e, codes[e]);
    PackedNumber(f, scales, e / 32);
    NumberKept(Pack4(codes), F32Bytes(f, scales), 4 * (e / 32), f.pack(scales[e / 32]));
  }

  lemma {:induction false} NibbleKept(a: seq<Byte>, b: seq<Byte>, e: nat, q: int)
    requires NibbleAt(a, e, q)
    ensures NibbleAt(a + b, e, q)
  {
  }

  lemma {:induction false} NumberKept(a: seq<Byte>, b: seq<Byte>, p: nat, x: int)
    requires NumberAt(b, p, x)
    ensures NumberAt(a + b, |a| + p, x)
  {
  }

  /** The payload of `size` nibbles and their scales holds code q at place e and its scale behind the nibbles. */
  ghost predicate Q4Holds(f: F32, data: seq<Byte>, size: nat, e: nat, s: real, q: int) {
    && |data| == size / 2 + 4 * (size / 32) && e < size
    && NibbleAt(data, e, q) && NumberAt(data, size / 2 + 4 * (e / 32), f.pack(s))
  }

  ghost predicate Q4Code(q: int, s: real, x: real) {
    s > 0.0 && NearestEven(q, x / s) && -7 <= q <= 7
  }

  ghost predicate Q4Shaped(t: Tensor, d: nat, n: nat) {
    TwoDimensional(t) && t.shape == [d, n] && t.name != "tok_embeddings.weight" && d >= 32 && d % 32 == 0
  }

  /** The record around the payload. */
  lemma {:induction false} Q4Record(f: F32, t: Tensor, d: nat, n: nat)
    requires Q4Shaped(t, d, n)
    ensures F32Sized(t)
    ensures var m := Quantize(f, FormatQ4, t);
            m.name == t.name && m.shape == [n, d] && m.dtype == 3 && m.flags == 32
  {
    Q4Unfolds(f, t);
    hide Quantize;
    hide Q4Data;
    hide Rows;
  }

  lemma {:induction false} Q4ShapedMeans(t: Tensor, d: nat, n: nat)
    requires Q4Shaped(t, d, n)
    ensures TwoDimensional(t) && F32Sized(t) && d % 32 == 0 && d >= 32 && t.shape == [d, n] && t.name != "tok_embeddings.weight"
  {
    hide F32Sized;
  }

  /** A q4 tensor keeps weight (i, o) at place e, row by row of the transpose: in a nibble, with the scale of its group of
      32 behind the nibbles. */
  lemma {:induction false} Q4Stored(f: F32, t: Tensor, d: nat, n: nat, o: nat, i: nat, b: nat, size: nat, e: nat)
    returns (s: real, q: int)
    requires Q4Shaped(t, d, n) && o < n && i < d && size == d * n && e == o * d + i && 32 * b <= i < 32 * b + 32
    ensures F32Sized(t) && Q4Holds(f, Quantize(f, FormatQ4, t).data, size, e, s, q)
    ensures ScaleOf(s, WeightsFrom(f, t, 32 * b, o), 32, 7)
    ensures Q4Code(q, s, WeightAt(f, t, i, o))
  {
    hide *;
    Q4ShapedMeans(t, d, n);
    Q4Unfolds(f, t);
    RowsMean(f, t, i, o);
    GroupWeights(f, t, d, n, o, i, b);
    GroupCount(n, d);
    var w := WeightsFrom(f, t, 32 * b, o);
    WeightsMean(f, t, 32 * b, o);
    s, q := Q4Payload(f, Rows(f, t), n * (d / 32), e, w);
  }

  lemma {:induction false} WeightsMean(f: F32, t: Tensor, first: nat, o: nat)
    requires |t.shape| == 2 && t.shape[1] >= 0
    ensures forall k: nat :: WeightsFrom(f, t, first, o)(k) == WeightAt(f, t, first + k, o)
  {
    hide WeightAt;
  }

  lemma {:induction false} Q4Payload(f: F32, rows: seq<real>, groups: nat, e: nat, w: nat -> real) returns (s: real, q: int)
    requires |rows| == groups * 32 && |rows| % 2 == 0 && e < |rows| && e / 32 < groups
    requires forall k: nat :: k < 32 ==> GroupOf(rows, 32, groups, e / 32)[k] == w(k)
    ensures Q4Holds(f, Q4Data(f, rows, groups, 32), |rows|, e, s, q)
    ensures ScaleOf(s, w, 32, 7) && Q4Code(q, s, rows[e])
  {
    hide *;
    s, q := Q4CodeMeans(rows, groups, e, w);
    Q4Bytes(f, rows, groups, e);
    Q4HoldsIf(f, Q4Data(f, rows, groups, 32), |rows|, groups, e, s, q);
  }

  lemma {:induction false} Q4HoldsIf(f: F32, data: seq<Byte>, size: nat, groups: nat, e: nat, s: real, q: int)
    requires size == groups * 32 && |data| == size / 2 + 4 * groups && e < size
    requires NibbleAt(data, e, q) && NumberAt(data, size / 2 + 4 * (e / 32), f.pack(s))
    ensures Q4Holds(f, data, size, e, s, q)
  {
    hide NibbleAt;
    hide NumberAt;
  }

  lemma {:induction false} Q4CodeMeans(rows: seq<real>, groups: nat, e: nat, w: nat -> real) returns (s: real, q: int)
    requires |rows| == groups * 32 && e < |rows| && e / 32 < groups
    requires forall k: nat :: k < 32 ==> GroupOf(rows, 32, groups, e / 32)[k] == w(k)
    ensures |rows| == groups * Q4(32).Group()
    ensures s == Scales(Q4(32), rows, groups)[e / 32] && q == Codes(Q4(32), rows, groups)[e]
    ensures ScaleOf(s, w, 32, 7) && Q4Code(q, s, rows[e])
  {
    assert Q4(32).Group() == 32 && Q4(32).Levels() == 7;
    hide GroupOf;
    hide ScaleOf;
    hide Scales;
    hide Codes;
    hide RoundHalfEven;
    hide NearestEven;
    s, q := CodeMeans(Q4(32), rows, groups, e, w);
    ScalePositive(s, w, 32, 7);
    EvenMeans(rows[e] / s);
  }

  lemma {:induction false} ScalePositive(s: real, w: nat -> real, n: nat, levels: int)
    requires ScaleOf(s, w, n, levels)
    ensures s > 0.0
  {
  }

  lemma {:induction false} GroupCount(n: nat, d: nat)
    requires d % 32 == 0
    ensures (d * n) / 32 == n * (d / 32) && d * n == (n * (d / 32)) * 32
  {
    var groups := d / 32;
    assert d == groups * 32;
    MulAssoc(n, groups, 32);
    assert d * n == (n * groups) * 32;
  }

  // --------------------------------------------------------------------- q8

  /** The payload of `size` bytes and n scales holds code q at place e and scale o behind the bytes. */
  ghost predicate Q8Holds(f: F32, data: seq<Byte>, size: nat, n: nat, e: nat, o: nat, s: real, q: int) {
    && |data| == size + 4 * n && e < size && o < n
    && data[e] as int == (if q < 0 then q + 256 else q) && NumberAt(data, size + 4 * o, f.pack(s))
  }

  ghost predicate Q8Code(q: int, s: real, x: real) {
    s > 0.0 && NearestOuter(q, x / s) && -127 <= q <= 127
  }

  ghost predicate Q8Shaped(t: Tensor, d: nat, n: nat) {
    TwoDimensional(t) && t.shape == [d, n] && t.name != "tok_embeddings.weight"
  }

  lemma {:induction false} Q8Unfolds(f: F32, t: Tensor, d: nat, n: nat)
    requires Q8Shaped(t, d, n)
    ensures |Rows(f, t)| == n * d && F32Sized(t)
    ensures Quantize(f, FormatQ8, t) == Tensor(t.name, [n, d], 2, Q8Data(f, Rows(f, t), n, d), 0)
  {
    ProductOfTwo(t.shape);
    hide Q4Data;
    hide Q8Data;
    hide ReadF32s;
    hide Layout.Transpose;
  }

  lemma {:induction false} Q8Record(f: F32, t: Tensor, d: nat, n: nat)
    requires Q8Shaped(t, d, n)
    ensures F32Sized(t)
    ensures var m := Quantize(f, FormatQ8, t);
            m.name == t.name && m.shape == [n, d] && m.dtype == 2 && m.flags == 0
  {
    Q8Unfolds(f, t, d, n);
    hide Quantize;
    hide Q8Data;
    hide Rows;
  }

  lemma {:induction false} RowWeights(f: F32, t: Tensor, d: nat, n: nat, o: nat, i: nat)
    requires TwoDimensional(t) && t.shape == [d, n] && o < n && i < d
    ensures var rows, e := Rows(f, t), o * d + i;
            && 0 <= e < |rows| == n * d && e / d == o
            && forall k: nat :: k < d ==> GroupOf(rows, d, n, o)[k] == WeightAt(f, t, k, o)
  {
    FlatIndex(o, i, n, d);
    FlatRowBound(o, n, d);
    var rows := Rows(f, t);
    forall k: nat | k < d
      ensures GroupOf(rows, d, n, o)[k] == WeightAt(f, t, k, o)
    {
      RowsMean(f, t, k, o);
      hide Rows;
      hide WeightAt;
      GroupElement(rows, n, d, o, k, o * d + k);
    }
  }

  lemma {:induction false} Q8ShapedMeans(t: Tensor, d: nat, n: nat)
    requires Q8Shaped(t, d, n)
    ensures TwoDimensional(t) && t.shape == [d, n]
  {
    hide F32Sized;
  }

  /** A q8 tensor keeps weight (i, o) in byte e, row by row of the transpose, and the scale of output o behind the bytes. */
  lemma {:induction false} Q8Stored(f: F32, t: Tensor, d: nat, n: nat, o: nat, i: nat, size: nat, e: nat) returns (s: real, q: int)
    requires Q8Shaped(t, d, n) && o < n && i < d && size == n * d && e == o * d + i
    ensures F32Sized(t) && Q8Holds(f, Quantize(f, FormatQ8, t).data, size, n, e, o, s, q)
    ensures ScaleOf(s, WeightsFrom(f, t, 0, o), d, 127)
    ensures Q8Code(q, s, WeightAt(f, t, i, o))
  {
    hide *;
    Q8ShapedMeans(t, d, n);
    Q8Unfolds(f, t, d, n);
    Q8Rows(f, t, d, n, o, i, e);
    s, q := Q8Payload(f, Rows(f, t), n, d, e, o, WeightsFrom(f, t, 0, o));
  }

  lemma {:induction false} Q8Rows(f: F32, t: Tensor, d: nat, n: nat, o: nat, i: nat, e: nat)
    requires TwoDimensional(t) && t.shape == [d, n] && o < n && i < d && e == o * d + i
    ensures var rows := Rows(f, t);
            && |rows| == n * d && e < |rows| && e / d == o && rows[e] == WeightAt(f, t, i, o)
            && forall k: nat :: k < d ==> GroupOf(rows, d, n, o)[k] == WeightsFrom(f, t, 0, o)(k)
  {
    hide *;
    RowsMean(f, t, i, o);
    RowWeights(f, t, d, n, o, i);
    WeightsMean(f, t, 0, o);
  }

  lemma {:induction false} Q8Payload(f: F32, rows: seq<real>, n: nat, d: nat, e: nat, o: nat, w: nat -> real) returns (s: real, q: int)
    requires |rows| == n * d && e < |rows| && d > 0 && e / d == o < n
    requires forall k: nat :: k < d ==> GroupOf(rows, d, n, o)[k] == w(k)
    ensures Q8Holds(f, Q8Data(f, rows, n, d), |rows|, n, e, o, s, q)
    ensures ScaleOf(s, w, d, 127) && Q8Code(q, s, rows[e])
  {
    hide *;
    s, q := Q8CodeMeans(rows, n, d, e, o, w);
    Q8Bytes(f, rows, n, d, e, o);
    Q8CodeBounds(q, s, rows[e]);
    Q8HoldsIf(f, Q8Data(f, rows, n, d), |rows|, n, e, o, s, q);
  }

  lemma {:induction false} Q8CodeBounds(q: int, s: real, x: real)
    requires Q8Code(q, s, x)
    ensures -127 <= q <= 127
  {
    hide NearestOuter;
  }

  lemma {:induction false} Q8HoldsIf(f: F32, data: seq<Byte>, size: nat, n: nat, e: nat, o: nat, s: real, q: int)
    requires |data| == size + 4 * n && e < size && o < n && -127 <= q <= 127
    requires data[e] as int == q % 256 && NumberAt(data, size + 4 * o, f.pack(s))
    ensures Q8Holds(f, data, size, n, e, o, s, q)
  {
    hide NumberAt;
  }

  lemma {:induction false} Q8CodeMeans(rows: seq<real>, n: nat, d: nat, e: nat, o: nat, w: nat -> real) returns (s: real, q: int)
    requires |rows| == n * d && e < |rows| && d > 0 && e / d == o < n
    requires forall k: nat :: k < d ==> GroupOf(rows, d, n, o)[k] == w(k)
    ensures |rows| == n * Q8(d).Group()
    ensures s == Scales(Q8(d), rows, n)[o] && q == Codes(Q8(d), rows, n)[e]
    ensures ScaleOf(s, w, d, 127) && Q8Code(q, s, rows[e])
  {
    assert Q8(d).Group() == d && Q8(d).Levels() == 127;
    hide GroupOf;
    hide ScaleOf;
    hide Scales;
    hide Codes;
    hide RoundAway;
    hide NearestOuter;
    s, q := CodeMeans(Q8(d), rows, n, e, w);
    ScalePositive(s, w, d, 127);
    OuterMeans(rows[e] / s);
  }

  lemma {:induction false} Q8Bytes(f: F32, rows: seq<real>, n: nat, d: nat, e: nat, o: nat)
    requires |rows| == n * d && e < |rows| && o < n
    ensures var data := Q8Data(f, rows, n, d);
            && |data| == |rows| + 4 * n
            && data[e] as int == Codes(Q8(d), rows, n)[e] % 256
            && NumberAt(data, |rows| + 4 * o, f.pack(Scales(Q8(d), rows, n)[o]))
  {
    var codes, scales := Codes(Q8(d), rows, n), Scales(Q8(d), rows, n);
    assert Q8Data(f, rows, n, d) == Pack8(codes) + F32Bytes(f, scales);
    assert |codes| == |rows| && |scales| == n && Pack8(codes)[e] as int == codes[e] % 256;
    hide *;
    PackedNumber(f, scales, o);
    NumberKept(Pack8(codes), F32Bytes(f, scales), 4 * o, f.pack(scales[o]));
  }

  /** A tensor that is not eligible stays as it is. */
  lemma {:induction false} OthersStay(f: F32, fmt: Format, t: Tensor)
    requires F32Sized(t)
    ensures fmt == FormatF32 || |t.shape| != 2 || t.name == "tok_embeddings.weight" ==> Quantize(f, fmt, t) == t
    ensures fmt == FormatQ4 && |t.shape| == 2 && (t.shape[0] < 32 || t.shape[0] % 32 != 0) ==> Quantize(f, fmt, t) == t
  {
    hide Q4Data;
    hide Q8Data;
    hide ReadF32s;
    hide Layout.Transpose;
  }
}
