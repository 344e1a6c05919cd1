module QuantMatmul {
  // The transposed quantised layout refines the f32 product: `W[i] . x` over the decoded [out, in]
  // storage differs from `(x @ W)[i]` by at most the accumulated element errors.

  import opened Common
  import opened Bytes
  import opened LinearAlgebra
  import opened Quant
  import opened QuantCodec
  import opened Layout

  /** How far element e may be off after decoding with the stored scales: not at all in a group of zeros. */
  function Allowance(sch: Scheme, values: seq<real>, n: nat, stored: seq<real>, e: nat): real
    requires |values| == n * sch.Group() && |stored| == n && e < |values|
  {
    FlatSplit(e, n, sch.Group());
    var g := e / sch.Group();
    var s := Scale(sch, values, n, g);
    if MaxAbs(GroupOf(values, sch.Group(), n, g)) == 0.0 then 0.0
    else s / 2.0 + Decode(sch.Levels(), Abs(stored[g] - s))
  }

  function AbsWeighted(x: seq<real>, bound: seq<real>): (s: seq<real>)
    requires |x| == |bound|
    ensures |s| == |x|
  {
    seq(|x|, j requires 0 <= j < |x| => Abs(x[j]) * bound[j])
  }

  lemma {:induction false} SumBound(p: seq<real>, q: seq<real>, r: seq<real>)
    requires |p| == |q| == |r|
    requires forall j :: 0 <= j < |p| ==> Abs(p[j] - q[j]) <= r[j]
    ensures Abs(RSum(p) - RSum(q)) <= RSum(r)
  {
    var n := |p| - 1;
    if n >= 0 {
      SumBound(p[..n], q[..n], r[..n]);
    }
  }

  lemma {:induction false} DotBound(a: seq<real>, b: seq<real>, x: seq<real>, bound: seq<real>)
    requires |a| == |b| == |x| == |bound|
    requires forall j :: 0 <= j < |a| ==> Abs(a[j] - b[j]) <= bound[j]
    ensures Abs(Dot(a, x) - Dot(x, b)) <= RSum(AbsWeighted(x, bound))
  {
    hide Products;
    hide AbsWeighted;
    hide Abs;
    forall j | 0 <= j < |a|
      ensures Abs(Products(a, x)[j] - Products(x, b)[j]) <= AbsWeighted(x, bound)[j]
    {
      TermAt(a, b, x, bound, j);
    }
    SumBound(Products(a, x), Products(x, b), AbsWeighted(x, bound));
  }

  lemma {:induction false} TermAt(a: seq<real>, b: seq<real>, x: seq<real>, bound: seq<real>, j: nat)
    requires |a| == |b| == |x| == |bound| && j < |a| && Abs(a[j] - b[j]) <= bound[j]
    ensures Abs(Products(a, x)[j] - Products(x, b)[j]) <= AbsWeighted(x, bound)[j]
  {
    TermBound(a[j], b[j], x[j], bound[j]);
  }

  lemma {:induction false} TermBound(a: real, b: real, x: real, bound: real)
    requires Abs(a - b) <= bound
    ensures Abs(a * x - x * b) <= Abs(x) * bound
  {
    assert a * x - x * b == (a - b) * x;
    AbsProduct(a - b, x);
    MulLe(Abs(a - b), bound, Abs(x));
  }

  /** The bounds covering row i of the [out, in] storage. */
  function RowAllowances(sch: Scheme, values: seq<real>, n: nat, stored: seq<real>, rows: nat, cols: nat, i: nat): (s: seq<real>)
    requires |values| == n * sch.Group() == rows * cols && |stored| == n && i < rows
    ensures |s| == cols
  {
    FlatRowBound(i, rows, cols);
    seq(cols, j requires 0 <= j < cols => Allowance(sch, values, n, stored, i * cols + j))
  }

  lemma {:induction false} MatmulBound(sch: Scheme, w: Matrix, n: nat, stored: seq<real>, x: seq<real>, i: nat)
    requires |w.data| == w.rows * w.cols == n * sch.Group() && |stored| == n
    requires |x| == w.rows && i < w.cols
    ensures w.cols * w.rows == w.rows * w.cols
    ensures var values := Transpose(w.data, w.rows, w.cols);
            var decoded := Dequantize(sch, Codes(sch, values, n), stored);
            Abs(Dot(GroupOf(decoded, w.rows, w.cols, i), x) - VecMat(x, w)[i])
              <= RSum(AbsWeighted(x, RowAllowances(sch, values, n, stored, w.cols, w.rows, i)))
  {
    var values := Transpose(w.data, w.rows, w.cols);
    var decoded := Dequantize(sch, Codes(sch, values, n), stored);
    var bound := RowAllowances(sch, values, n, stored, w.cols, w.rows, i);
    var row, column := GroupOf(decoded, w.rows, w.cols, i), Column(w, i);
    assert VecMat(x, w)[i] == Dot(x, column);
    hide *;
    forall j | 0 <= j < w.rows
      ensures Abs(row[j] - column[j]) <= bound[j]
    {
      RowElement(sch, w, n, stored, i, j);
    }
    DotBound(row, column, x, bound);
  }

  lemma {:induction false} RowElement(sch: Scheme, w: Matrix, n: nat, stored: seq<real>, i: nat, j: nat)
    requires |w.data| == w.rows * w.cols == n * sch.Group() && |stored| == n
    requires j < w.rows && i < w.cols
    ensures w.cols * w.rows == w.rows * w.cols
    ensures var values := Transpose(w.data, w.rows, w.cols);
            Abs(GroupOf(Dequantize(sch, Codes(sch, values, n), stored), w.rows, w.cols, i)[j] - Column(w, i)[j])
              <= RowAllowances(sch, values, n, stored, w.cols, w.rows, i)[j]
  {
    var values := Transpose(w.data, w.rows, w.cols);
    var e := i * w.rows + j;
    FlatIndex(i, j, w.cols, w.rows);
    TransposeAt(w.data, w.rows, w.cols, j, i);
    assert Column(w, i)[j] == values[e];
    ElementWithin(sch, values, n, stored, e);
    hide Dequantize;
    hide Allowance;
    hide Transpose;
    GroupElement(Dequantize(sch, Codes(sch, values, n), stored), w.cols, w.rows, i, j, i * w.rows + j);
  }

  lemma {:induction false} ElementWithin(sch: Scheme, values: seq<real>, n: nat, stored: seq<real>, e: nat)
    requires |values| == n * sch.Group() && |stored| == n && e < |values|
    ensures Abs(Dequantize(sch, Codes(sch, values, n), stored)[e] - values[e]) <= Allowance(sch, values, n, stored, e)
  {
    QuantizationBound(sch, values, n, stored, e);
    hide Dequantize;
    hide Codes;
    hide Code;
    hide Scale;
    hide GroupOf;
    hide MaxAbs;
  }

  // ------------------------------------------------------- written payloads

  /** From f32 weights through the written q4 bytes back to a product. */
  lemma {:induction false} Q4ProductBound(c: F32, w: Matrix, gs: nat, x: seq<real>, i: nat)
    requires gs > 0 && gs % 2 == 0 && w.rows % gs == 0
    requires |w.data| == w.rows * w.cols && |x| == w.rows && i < w.cols
    ensures var n := w.cols * (w.rows / gs);
            var values := Transpose(w.data, w.rows, w.cols);
            && w.cols * w.rows == |values| == n * gs && |values| % 2 == 0
            && (var decoded := DecodeQ4(c, Q4Data(c, values, n, gs), |values|, n, gs);
                var stored := StoredAll(c, Scales(Q4(gs), values, n));
                Abs(Dot(GroupOf(decoded, w.rows, w.cols, i), x) - VecMat(x, w)[i])
                  <= RSum(AbsWeighted(x, RowAllowances(Q4(gs), values, n, stored, w.cols, w.rows, i))))
  {
    var groups := w.rows / gs;
    var n := w.cols * groups;
    TotalGroups(w.cols, groups, gs, w.rows);
    HalfSize(n, gs);
    var values := Transpose(w.data, w.rows, w.cols);
    hide *;
    Q4StorageRoundTrip(c, values, n, gs);
    MatmulBound(Q4(gs), w, n, StoredAll(c, Scales(Q4(gs), values, n)), x, i);
  }

  lemma {:induction false} Q8ProductBound(c: F32, w: Matrix, x: seq<real>, i: nat)
    requires |w.data| == w.rows * w.cols && |x| == w.rows && i < w.cols
    ensures var values := Transpose(w.data, w.rows, w.cols);
            && |values| == w.cols * w.rows
            && (var decoded := DecodeQ8(c, Q8Data(c, values, w.cols, w.rows), w.cols, w.rows);
                var stored := StoredAll(c, Scales(Q8(w.rows), values, w.cols));
                Abs(Dot(GroupOf(decoded, w.rows, w.cols, i), x) - VecMat(x, w)[i])
                  <= RSum(AbsWeighted(x, RowAllowances(Q8(w.rows), values, w.cols, stored, w.cols, w.rows, i))))
  {
    var values := Transpose(w.data, w.rows, w.cols);
    hide *;
    Q8StorageRoundTrip(c, values, w.cols, w.rows);
    MatmulBound(Q8(w.rows), w, w.cols, StoredAll(c, Scales(Q8(w.rows), values, w.cols)), x, i);
  }

  function Uniform(n: nat, b: real): (s: seq<real>)
    ensures |s| == n && forall j :: 0 <= j < n ==> s[j] == b
  {
    seq(n, j => b)
  }

  /** With scales that f32 holds exactly, a q8 row is off by at most its largest magnitude over 254
      for each unit of input. */
  lemma {:induction false} Q8ExactRowBound(w: Matrix, stored: seq<real>, x: seq<real>, i: nat)
    requires |w.data| == w.rows * w.cols && |x| == w.rows && i < w.cols && |stored| == w.cols
    requires stored == Scales(Q8(w.rows), Transpose(w.data, w.rows, w.cols), w.cols)
    ensures w.cols * w.rows == w.rows * w.cols
    ensures var values := Transpose(w.data, w.rows, w.cols);
            var decoded := Dequantize(Q8(w.rows), Codes(Q8(w.rows), values, w.cols), stored);
            Abs(Dot(GroupOf(decoded, w.rows, w.cols, i), x) - VecMat(x, w)[i])
              <= RSum(AbsWeighted(x, Uniform(w.rows, MaxAbs(Column(w, i)) / 254.0)))
  {
    hide *;
    RowIsColumn(w, i);
    Q8RowBound(w, Transpose(w.data, w.rows, w.cols), stored, x, i, Column(w, i));
  }

  lemma {:induction false} Q8RowBound(w: Matrix, values: seq<real>, stored: seq<real>, x: seq<real>, i: nat, column: seq<real>)
    requires |w.data| == w.rows * w.cols == w.cols * w.rows && |x| == w.rows && i < w.cols && |stored| == w.cols
    requires values == Transpose(w.data, w.rows, w.cols)
    requires stored == Scales(Q8(w.rows), values, w.cols)
    requires GroupOf(values, w.rows, w.cols, i) == column
    ensures var decoded := Dequantize(Q8(w.rows), Codes(Q8(w.rows), values, w.cols), stored);
            Abs(Dot(GroupOf(decoded, w.rows, w.cols, i), x) - VecMat(x, w)[i])
              <= RSum(AbsWeighted(x, Uniform(w.rows, MaxAbs(column) / 254.0)))
  {
    assert Q8(w.rows).Group() == w.rows;
    hide *;
    ExactRow(w, values, stored, i);
    MatmulBound(Q8(w.rows), w, w.cols, stored, x, i);
  }

  lemma {:induction false} ExactRow(w: Matrix, values: seq<real>, stored: seq<real>, i: nat)
    requires |values| == w.cols * w.rows && i < w.cols && |stored| == w.cols
    requires stored == Scales(Q8(w.rows), values, w.cols)
    ensures RowAllowances(Q8(w.rows), values, w.cols, stored, w.cols, w.rows, i)
         == Uniform(w.rows, MaxAbs(GroupOf(values, w.rows, w.cols, i)) / 254.0)
  {
    var m := MaxAbs(GroupOf(values, w.rows, w.cols, i)) / 254.0;
    var bound := RowAllowances(Q8(w.rows), values, w.cols, stored, w.cols, w.rows, i);
    hide Scales;
    hide Allowance;
    forall j | 0 <= j < w.rows
      ensures bound[j] == m
    {
      ExactAllowance(w, values, stored, i, j);
    }
  }

  lemma {:induction false} RowIsColumn(w: Matrix, i: nat)
    requires |w.data| == w.rows * w.cols && i < w.cols
    ensures GroupOf(Transpose(w.data, w.rows, w.cols), w.rows, w.cols, i) == Column(w, i)
  {
    var values := Transpose(w.data, w.rows, w.cols);
    var row := GroupOf(values, w.rows, w.cols, i);
    forall j | 0 <= j < w.rows
      ensures row[j] == Column(w, i)[j]
    {
      TransposeAt(w.data, w.rows, w.cols, j, i);
      FlatIndex(i, j, w.cols, w.rows);
      GroupElement(values, w.cols, w.rows, i, j, i * w.rows + j);
    }
  }

  lemma {:induction false} ExactAllowance(w: Matrix, values: seq<real>, stored: seq<real>, i: nat, j: nat)
    requires |values| == w.cols * w.rows && i < w.cols && j < w.rows && |stored| == w.cols
    requires stored == Scales(Q8(w.rows), values, w.cols)
    ensures i * w.rows + j < |values|
    ensures Allowance(Q8(w.rows), values, w.cols, stored, i * w.rows + j) == MaxAbs(GroupOf(values, w.rows, w.cols, i)) / 254.0
  {
    FlatIndex(i, j, w.cols, w.rows);
    var m := MaxAbs(GroupOf(values, w.rows, w.cols, i));
    hide GroupOf;
    hide MaxAbs;
    assert Abs(stored[i] - stored[i]) == 0.0 && Decode(127, 0.0) == 0.0;
    HalfScale(m);
    hide ScaleFor;
    hide Decode;
  }

  lemma {:induction false} HalfScale(m: real)
    requires m >= 0.0
    ensures m > 0.0 ==> ScaleFor(m, 127) / 2.0 == m / 254.0
  {
  }
}
