module ForwardMeaning {
  // The forward pass once more, coordinate by coordinate in sums of products, and what follows from it.

  import opened Common
  import opened LinearAlgebra
  import opened ForwardPass

  function SumTo(n: nat, f: nat -> real): real {
    if n == 0 then 0.0 else SumTo(n - 1, f) + f(n - 1)
  }

  function Times(x: real, y: real): real {
    x * y
  }

  function Get(s: seq<real>, i: nat): real {
    if i < |s| then s[i] else 0.0
  }

  function Cell(w: Matrix, i: nat, j: nat): real {
    Get(w.data, i * w.cols + j)
  }

  // ------------------------------------------------------- one layer in sums

  /** Coordinate i of x over its root mean square, times the norm's weight. */
  function Normed(m: Maths, x: seq<real>, norm: seq<real>, i: nat): real {
    if |x| == 0 then 0.0
    else Get(x, i) / m.sqrt(SumTo(|x|, (k: nat) => Get(x, k) * Get(x, k)) / |x| as real + 0.000001) * Get(norm, i)
  }

  /** Coordinate j of the normed x times w. */
  function Projected(m: Maths, x: seq<real>, norm: seq<real>, w: Matrix, j: nat): real {
    SumTo(|x|, (i: nat) => Normed(m, x, norm, i) * Cell(w, i, j))
  }

  function Projecting(m: Maths, x: seq<real>, norm: seq<real>, w: Matrix): nat -> real {
    (j: nat) => Projected(m, x, norm, w, j)
  }

  /** position / theta^(2k / dh). */
  function Angle(m: Maths, k: nat, dh: nat, position: nat, theta: real): real
    requires dh > 0
  {
    position as real / m.pow(theta, (2 * k) as real / dh as real)
  }

  /** Coordinate j of a vector whose heads of width dh are turned for a position, in pairs of coordinates. */
  function Rotated(m: Maths, v: nat -> real, dh: nat, position: nat, theta: real, j: nat): real {
    if dh == 0 then 0.0
    else
      var i := j % dh;
      var angle := Angle(m, i / 2, dh, position, theta);
      if i % 2 == 0 then v(j) * m.cos(angle) - v(j + 1) * m.sin(angle)
      else if j == 0 then 0.0 else v(j - 1) * m.sin(angle) + v(j) * m.cos(angle)
  }

  function Query(md: Model, l: nat, x: seq<real>, position: nat, j: nat): real
    requires md.cfg.nHeads > 0 && l < |md.w.layers|
  {
    var layer := md.w.layers[l];
    Rotated(md.maths, Projecting(md.maths, x, layer.attentionNorm, layer.wq), md.cfg.dModel / md.cfg.nHeads,
            position, md.cfg.ropeTheta, j)
  }

  function Key(md: Model, l: nat, x: seq<real>, position: nat, j: nat): real
    requires md.cfg.nHeads > 0 && l < |md.w.layers|
  {
    var layer := md.w.layers[l];
    Rotated(md.maths, Projecting(md.maths, x, layer.attentionNorm, layer.wk), md.cfg.dModel / md.cfg.nHeads,
            position, md.cfg.ropeTheta, j)
  }

  function Value(md: Model, l: nat, x: seq<real>, j: nat): real
    requires l < |md.w.layers|
  {
    Projected(md.maths, x, md.w.layers[l].attentionNorm, md.w.layers[l].wv, j)
  }

  /** Element i of a head. */
  function Place(head: nat, dh: nat, i: nat): nat {
    head * dh + i
  }

  /** nHeads / nKvHeads query heads in a row share a key/value head. */
  function SharedHead(md: Model, head: nat): nat
    requires md.GroupsSupported()
  {
    var group := md.cfg.nHeads / md.cfg.nKvHeads;
    if group == 0 then 0 else head / group
  }

  /** How much position s answers to position t in one query head. */
  function Score(md: Model, l: nat, h: seq<seq<real>>, t: nat, head: nat, s: nat): real
    requires md.GroupsSupported() && l < |md.w.layers| && t < |h|
  {
    var dh := md.cfg.dModel / md.cfg.nHeads;
    SumTo(dh, ScoreTerms(md, l, h, t, head, s)) / md.maths.sqrt(dh as real)
  }

  /** The products of its elements. */
  function ScoreTerms(md: Model, l: nat, h: seq<seq<real>>, t: nat, head: nat, s: nat): nat -> real
    requires md.GroupsSupported() && l < |md.w.layers| && t < |h|
  {
    var dh, kvHead := md.cfg.dModel / md.cfg.nHeads, SharedHead(md, head);
    (i: nat) => if s < |h| then Times(Query(md, l, h[t], t, Place(head, dh, i)), Key(md, l, h[s], s, Place(kvHead, dh, i))) else 0.0
  }

  function Greatest(n: nat, f: nat -> real): real
    requires n > 0
  {
    if n == 1 then f(0) else if f(n - 1) > Greatest(n - 1, f) then f(n - 1) else Greatest(n - 1, f)
  }

  function Share(m: Maths, n: nat, f: nat -> real, s: nat): real
    requires n > 0
  {
    m.exp(f(s) - Greatest(n, f)) / PositiveSum(m, n, f, n)
  }

  function PositiveSum(m: Maths, n: nat, f: nat -> real, k: nat): (r: real)
    requires n > 0
    ensures r >= 0.0 && (k > 0 ==> r > 0.0)
  {
    if k == 0 then 0.0 else PositiveSum(m, n, f, k - 1) + m.exp(f(k - 1) - Greatest(n, f))
  }

  /** Coordinate i of what one query head takes in: the values of the positions so far, each by its share. */
  function Attended(md: Model, l: nat, h: seq<seq<real>>, t: nat, head: nat, i: nat): real
    requires md.GroupsSupported() && l < |md.w.layers| && t < |h|
  {
    SumTo(t + 1, AttendTerms(md, l, h, t, head, i))
  }

  function AttendTerms(md: Model, l: nat, h: seq<seq<real>>, t: nat, head: nat, i: nat): nat -> real
    requires md.GroupsSupported() && l < |md.w.layers| && t < |h|
  {
    var dh, kvHead := md.cfg.dModel / md.cfg.nHeads, SharedHead(md, head);
    (s: nat) => if s < |h| then Times(Share(md.maths, t + 1, ScoresOf(md, l, h, t, head), s), Value(md, l, h[s], Place(kvHead, dh, i))) else 0.0
  }

  function ScoresOf(md: Model, l: nat, h: seq<seq<real>>, t: nat, head: nat): nat -> real
    requires md.GroupsSupported() && l < |md.w.layers| && t < |h|
  {
    (u: nat) => Score(md, l, h, t, head, u)
  }

  /** Coordinate j of the context; what no head reaches is zero. */
  function Mixed(md: Model, l: nat, h: seq<seq<real>>, t: nat, j: nat): real
    requires md.GroupsSupported() && l < |md.w.layers| && t < |h|
  {
    var dh := md.cfg.dModel / md.cfg.nHeads;
    if dh == 0 || j >= md.cfg.nHeads * dh then 0.0 else Attended(md, l, h, t, j / dh, j % dh)
  }

  /** After attention: the input plus the output projection of the context. */
  function Middle(md: Model, l: nat, h: seq<seq<real>>, t: nat, i: nat): real
    requires md.GroupsSupported() && l < |md.w.layers| && t < |h|
  {
    Get(h[t], i) + SumTo(md.cfg.dModel, MixTerms(md, l, h, t, i))
  }

  function MixTerms(md: Model, l: nat, h: seq<seq<real>>, t: nat, i: nat): nat -> real
    requires md.GroupsSupported() && l < |md.w.layers| && t < |h|
  {
    (k: nat) => Times(Mixed(md, l, h, t, k), Cell(md.w.layers[l].wo, k, i))
  }

  function Middles(md: Model, l: nat, h: seq<seq<real>>, t: nat): (x: seq<real>)
    requires md.GroupsSupported() && l < |md.w.layers| && t < |h|
    ensures |x| == md.cfg.dModel
  {
    seq(md.cfg.dModel, i requires 0 <= i < md.cfg.dModel => Middle(md, l, h, t, i))
  }

  /** Coordinate j of silu(gate) * up. */
  function Gated(md: Model, l: nat, x: seq<real>, j: nat): real
    requires l < |md.w.layers|
  {
    var m, layer := md.maths, md.w.layers[l];
    var gate, up := Projected(m, x, layer.ffnNorm, layer.wGate, j), Projected(m, x, layer.ffnNorm, layer.wUp, j);
    SiluTimes(m, gate, up)
  }

  function SiluTimes(m: Maths, gate: real, up: real): real {
    gate / (1.0 + m.exp(-gate)) * up
  }

  /** After the layer: that plus the down projection of the gated coordinates. */
  function After(md: Model, l: nat, h: seq<seq<real>>, t: nat, i: nat): real
    requires md.GroupsSupported() && l < |md.w.layers| && t < |h|
  {
    Middle(md, l, h, t, i) + SumTo(md.cfg.dFf, DownTerms(md, l, Middles(md, l, h, t), i))
  }

  function DownTerms(md: Model, l: nat, x: seq<real>, i: nat): nat -> real
    requires l < |md.w.layers|
  {
    (j: nat) => Times(Gated(md, l, x, j), Cell(md.w.layers[l].wDown, j, i))
  }

  // -------------------------------------------------------- sums and products

  lemma {:induction false} SumSame(n: nat, f: nat -> real, g: nat -> real)
    requires forall i: nat :: i < n ==> f(i) == g(i)
    ensures SumTo(n, f) == SumTo(n, g)
  {
    if n > 0 {
      SumSame(n - 1, f, g);
    }
  }

  lemma {:induction false} SumIs(s: seq<real>, f: nat -> real)
    requires forall i :: 0 <= i < |s| ==> s[i] == f(i)
    ensures RSum(s) == SumTo(|s|, f)
  {
    if |s| > 0 {
      SumIs(s[..|s| - 1], f);
    }
  }

  lemma {:induction false} DotIs(x: seq<real>, y: seq<real>, f: nat -> real)
    requires |x| == |y| && forall i :: 0 <= i < |x| ==> x[i] * y[i] == f(i)
    ensures Dot(x, y) == SumTo(|x|, f)
  {
    SumIs(Products(x, y), f);
  }

  lemma {:induction false} CellIs(w: Matrix, i: nat, j: nat)
    requires |w.data| == w.rows * w.cols && i < w.rows && j < w.cols
    ensures At(w, i, j) == Cell(w, i, j)
  {
    FlatIndex(i, j, w.rows, w.cols);
  }

  /** A coordinate of `x @ w`. */
  lemma {:induction false} VecMatIs(x: seq<real>, w: Matrix, j: nat, f: nat -> real)
    requires |w.data| == w.rows * w.cols && |x| == w.rows && j < w.cols
    requires forall i :: 0 <= i < |x| ==> f(i) == x[i] * Cell(w, i, j)
    ensures VecMat(x, w)[j] == SumTo(|x|, f)
  {
    forall i | 0 <= i < |x|
      ensures x[i] * Column(w, j)[i] == f(i)
    {
      CellIs(w, i, j);
    }
    hide At;
    hide Cell;
    DotIs(x, Column(w, j), f);
  }

  lemma {:induction false} NormIs(m: Maths, x: seq<real>, norm: seq<real>, i: nat)
    requires |x| == |norm| > 0 && i < |x|
    ensures RmsNorm(m, x, norm)[i] == Normed(m, x, norm, i)
  {
    DotIs(x, x, (k: nat) => Get(x, k) * Get(x, k));
    hide Dot;
    hide SumTo;
  }

  lemma {:induction false} ProjectionIs(m: Maths, x: seq<real>, norm: seq<real>, w: Matrix, j: nat)
    requires |x| == |norm| > 0 && |w.data| == w.rows * w.cols && |x| == w.rows && j < w.cols
    ensures VecMat(RmsNorm(m, x, norm), w)[j] == Projected(m, x, norm, w, j)
  {
    var n := RmsNorm(m, x, norm);
    forall i | 0 <= i < |n|
      ensures n[i] == Normed(m, x, norm, i)
    {
      NormIs(m, x, norm, i);
    }
    hide RmsNorm;
    hide Normed;
    hide Cell;
    VecMatIs(n, w, j, (i: nat) => Normed(m, x, norm, i) * Cell(w, i, j));
  }

  // ------------------------------------------------------------------ rotation

  lemma {:induction false} RotatedSame(m: Maths, f: nat -> real, g: nat -> real, dh: nat, position: nat, theta: real, j: nat)
    requires f(j) == g(j) && (dh > 0 && j % dh % 2 == 0 ==> f(j + 1) == g(j + 1)) && (dh > 0 && j % dh % 2 == 1 && j > 0 ==> f(j - 1) == g(j - 1))
    ensures Rotated(m, f, dh, position, theta, j) == Rotated(m, g, dh, position, theta, j)
  {
  }

  lemma {:induction false} AngleIs(m: Maths, i: nat, dh: nat, position: nat, theta: real)
    requires dh > 0
    ensures RopeAngle(m, i - i % 2, dh, position, theta) == Angle(m, i / 2, dh, position, theta)
  {
    assert i - i % 2 == 2 * (i / 2);
  }

  lemma {:induction false} RotatedAt(m: Maths, f: nat -> real, j: nat, dh: nat, position: nat, theta: real, i: nat)
    requires dh > 0 && j % dh == i && i <= j
    ensures var angle := Angle(m, i / 2, dh, position, theta);
            && (i % 2 == 0 ==> Rotated(m, f, dh, position, theta, j) == f(j) * m.cos(angle) - f(j + 1) * m.sin(angle))
            && (i % 2 == 1 ==> Rotated(m, f, dh, position, theta, j) == f(j - 1) * m.sin(angle) + f(j) * m.cos(angle))
  {
    hide Angle;
  }

  lemma {:induction false} RopeAt(m: Maths, v: seq<real>, position: nat, theta: real, i: nat)
    requires |v| % 2 == 0 && i < |v|
    ensures var angle := Angle(m, i / 2, |v|, position, theta);
            && (i % 2 == 0 ==> i + 1 < |v| && Rope(m, v, position, theta)[i] == v[i] * m.cos(angle) - v[i + 1] * m.sin(angle))
            && (i % 2 == 1 ==> Rope(m, v, position, theta)[i] == v[i - 1] * m.sin(angle) + v[i] * m.cos(angle))
  {
    hide Rope;
    hide RopeAngle;
    hide Angle;
    RopePair(m, v, position, theta, i - i % 2);
    AngleIs(m, i, |v|, position, theta);
  }

  function Reading(v: seq<real>): nat -> real {
    (k: nat) => Get(v, k)
  }

  lemma {:induction false} PlaceIn(head: nat, dh: nat, n: nat, i: nat)
    requires head < n && i < dh
    ensures Place(head, dh, i) % dh == i <= Place(head, dh, i) < n * dh
  {
    FlatIndex(head, i, n, dh);
  }

  lemma {:induction false} PlaceNext(head: nat, dh: nat, i: nat)
    ensures Place(head, dh, i + 1) == Place(head, dh, i) + 1
  {
  }

  lemma {:induction false} SliceReads(v: seq<real>, head: nat, dh: nat, n: nat, i: nat)
    requires n * dh <= |v| && head < n && i < dh
    ensures HeadSlice(v, head, dh, n)[i] == Reading(v)(Place(head, dh, i))
  {
    SliceIs(v, head, dh, n, i);
    hide HeadSlice;
    hide Get;
  }

  /** One head, turned. */
  lemma {:induction false} RopeIs(m: Maths, v: seq<real>, head: nat, dh: nat, n: nat, position: nat, theta: real, i: nat)
    requires n * dh <= |v| && head < n && i < dh && dh % 2 == 0
    ensures Rope(m, HeadSlice(v, head, dh, n), position, theta)[i] == Rotated(m, Reading(v), dh, position, theta, Place(head, dh, i))
  {
    hide *;
    PlaceIn(head, dh, n, i);
    RopeAt(m, HeadSlice(v, head, dh, n), position, theta, i);
    RotatedAt(m, Reading(v), Place(head, dh, i), dh, position, theta, i);
    SliceReads(v, head, dh, n, i);
    if i % 2 == 0 {
      SliceReads(v, head, dh, n, i + 1);
      PlaceNext(head, dh, i);
    } else {
      SliceReads(v, head, dh, n, i - 1);
      PlaceNext(head, dh, i - 1);
    }
  }

  lemma {:induction false} SliceIs(v: seq<real>, head: nat, dh: nat, n: nat, i: nat)
    requires n * dh <= |v| && head < n && i < dh
    ensures HeadSlice(v, head, dh, n)[i] == Get(v, head * dh + i)
  {
    HeadSliceAt(v, head, dh, n, i);
    hide HeadSlice;
  }

  lemma {:induction false} RopeHeadsNext(m: Maths, v: seq<real>, n: nat, dh: nat, position: nat, theta: real, h: nat)
    requires n * dh <= |v| && h < n && dh % 2 == 0
    ensures RopeHeads(m, v, n, dh, position, theta, h + 1)
         == RopeHeads(m, v, n, dh, position, theta, h) + Rope(m, HeadSlice(v, h, dh, n), position, theta)
  {
    hide HeadSlice;
    hide Rope;
  }

  lemma {:induction false} RopeHeadsAt(m: Maths, v: seq<real>, n: nat, dh: nat, position: nat, theta: real, h: nat, head: nat, i: nat)
    requires n * dh <= |v| && head < h <= n && i < dh && dh % 2 == 0
    ensures Place(head, dh, i) < h * dh
    ensures RopeHeads(m, v, n, dh, position, theta, h)[Place(head, dh, i)]
         == Rotated(m, Reading(v), dh, position, theta, Place(head, dh, i))
  {
    hide *;
    PlaceIn(head, dh, h, i);
    if head < h - 1 {
      RopeHeadsNext(m, v, n, dh, position, theta, h - 1);
      RopeHeadsAt(m, v, n, dh, position, theta, h - 1, head, i);
    } else {
      RopeHeadsLast(m, v, n, dh, position, theta, head, i);
    }
  }

  lemma {:induction false} RopeHeadsLast(m: Maths, v: seq<real>, n: nat, dh: nat, position: nat, theta: real, head: nat, i: nat)
    requires n * dh <= |v| && head < n && i < dh && dh % 2 == 0
    ensures Place(head, dh, i) < |RopeHeads(m, v, n, dh, position, theta, head + 1)|
    ensures RopeHeads(m, v, n, dh, position, theta, head + 1)[Place(head, dh, i)]
         == Rotated(m, Reading(v), dh, position, theta, Place(head, dh, i))
  {
    hide RopeHeads;
    hide HeadSlice;
    hide Rope;
    hide Rotated;
    hide Reading;
    RopeHeadsNext(m, v, n, dh, position, theta, head);
    RopeIs(m, v, head, dh, n, position, theta, i);
  }

  // ------------------------------------------------------------ one layer is that

  /** What a position puts into the cache and asks it for. */
  lemma {:induction false} QueryIs(md: Model, l: nat, x: seq<real>, position: nat, head: nat, i: nat)
    requires md.Usable() && md.HeadSizeOk() && l < md.cfg.nLayers && |x| == md.cfg.dModel
    requires head < md.cfg.nHeads && i < md.DHead()
    ensures Place(head, md.DHead(), i) < md.cfg.nHeads * md.DHead() <= md.cfg.dModel
    ensures MakeQ(md, l, x, position)[Place(head, md.DHead(), i)] == Query(md, l, x, position, Place(head, md.DHead(), i))
  {
    var layer, dh, n := md.w.layers[l], md.DHead(), md.cfg.nHeads;
    assert md.LayerShaped(layer);
    md.Widths();
    var q := VecMat(RmsNorm(md.maths, x, layer.attentionNorm), layer.wq);
    RopeHeadsAt(md.maths, q, n, dh, position, md.cfg.ropeTheta, n, head, i);
    RotatedProjection(md.maths, x, layer.attentionNorm, layer.wq, n, dh, position, md.cfg.ropeTheta, head, i);
    hide RmsNorm;
    hide RopeHeads;
    hide Rotated;
    hide Projected;
    hide VecMat;
  }

  lemma {:induction false} KeyIs(md: Model, l: nat, x: seq<real>, position: nat, head: nat, i: nat)
    requires md.Usable() && l < md.cfg.nLayers && md.LayerOk(l) && |x| == md.cfg.dModel
    requires head < md.cfg.nKvHeads && i < md.DHead()
    ensures Place(head, md.DHead(), i) < md.KvDim()
    ensures MakeKV(md, l, x, position).k[Place(head, md.DHead(), i)] == Key(md, l, x, position, Place(head, md.DHead(), i))
    ensures MakeKV(md, l, x, position).v[Place(head, md.DHead(), i)] == Value(md, l, x, Place(head, md.DHead(), i))
  {
    var layer, dh, n := md.w.layers[l], md.DHead(), md.cfg.nKvHeads;
    assert md.LayerShaped(layer) && md.LayerOk(l);
    var k := VecMat(RmsNorm(md.maths, x, layer.attentionNorm), layer.wk);
    RopeHeadsAt(md.maths, k, n, dh, position, md.cfg.ropeTheta, n, head, i);
    RotatedProjection(md.maths, x, layer.attentionNorm, layer.wk, n, dh, position, md.cfg.ropeTheta, head, i);
    FlatIndex(head, i, n, dh);
    ProjectionIs(md.maths, x, layer.attentionNorm, layer.wv, Place(head, dh, i));
    hide RmsNorm;
    hide RopeHeads;
    hide Rotated;
    hide Projected;
    hide VecMat;
  }

  /** Turning a projection turns its sums. */
  lemma {:induction false} RotatedProjection(m: Maths, x: seq<real>, norm: seq<real>, w: Matrix, n: nat, dh: nat, position: nat, theta: real,
                                             head: nat, i: nat)
    requires |x| == |norm| > 0 && |w.data| == w.rows * w.cols && |x| == w.rows && n * dh <= w.cols
    requires head < n && i < dh && dh % 2 == 0
    ensures var v := VecMat(RmsNorm(m, x, norm), w);
            Rotated(m, Reading(v), dh, position, theta, Place(head, dh, i))
            == Rotated(m, Projecting(m, x, norm, w), dh, position, theta, Place(head, dh, i))
  {
    hide *;
    PlaceIn(head, dh, n, i);
    ProjectionReads(m, x, norm, w, Place(head, dh, i));
    if i % 2 == 0 {
      PlaceIn(head, dh, n, i + 1);
      PlaceNext(head, dh, i);
      ProjectionReads(m, x, norm, w, Place(head, dh, i + 1));
    } else {
      PlaceNext(head, dh, i - 1);
      ProjectionReads(m, x, norm, w, Place(head, dh, i - 1));
    }
    RotatedSame(m, Reading(VecMat(RmsNorm(m, x, norm), w)), Projecting(m, x, norm, w), dh, position, theta, Place(head, dh, i));
  }

  lemma {:induction false} ProjectionReads(m: Maths, x: seq<real>, norm: seq<real>, w: Matrix, j: nat)
    requires |x| == |norm| > 0 && |w.data| == w.rows * w.cols && |x| == w.rows && j < w.cols
    ensures Reading(VecMat(RmsNorm(m, x, norm), w))(j) == Projecting(m, x, norm, w)(j)
  {
    ProjectionIs(m, x, norm, w, j);
    hide RmsNorm;
    hide Projected;
    hide VecMat;
  }

  lemma {:induction false} GreatestIs(x: seq<real>, f: nat -> real)
    requires |x| > 0 && forall i :: 0 <= i < |x| ==> x[i] == f(i)
    ensures Max(x) == Greatest(|x|, f)
  {
    if |x| > 1 {
      GreatestIs(x[..|x| - 1], f);
    }
  }

  lemma {:induction false} PositiveSumIs(m: Maths, e: seq<real>, n: nat, f: nat -> real, k: nat)
    requires 0 < n == |e| && k <= n && forall i :: 0 <= i < n ==> e[i] == m.exp(f(i) - Greatest(n, f))
    ensures RSum(e[..k]) == PositiveSum(m, n, f, k)
  {
    hide Greatest;
    if k > 0 {
      PositiveSumIs(m, e, n, f, k - 1);
      assert e[..k][..k - 1] == e[..k - 1];
    }
  }

  /** Softmax gives every position its share. */
  lemma {:induction false} ShareIs(m: Maths, x: seq<real>, f: nat -> real, s: nat)
    requires s < |x| && forall i :: 0 <= i < |x| ==> x[i] == f(i)
    ensures Softmax(m, x)[s] == Share(m, |x|, f, s)
  {
    GreatestIs(x, f);
    var e := seq(|x|, i requires 0 <= i < |x| => m.exp(x[i] - Max(x)) as real);
    PositiveSumIs(m, e, |x|, f, |x|);
    TakeAll(e);
    hide Greatest;
    hide Max;
    RSumPositive(e);
  }

  lemma {:induction false} SharedIs(md: Model, head: nat)
    requires md.GroupsSupported() && head < md.cfg.nHeads
    ensures md.KvHeadOf(head) == SharedHead(md, head) < md.cfg.nKvHeads
  {
  }

  /** Elements [from, from + dh) of every cached key, and of every cached value. */
  function KeyStretches(cache: seq<KV>, width: nat, from: nat, dh: nat): (s: seq<seq<real>>)
    requires CacheShaped(cache, width) && from + dh <= width
    ensures |s| == |cache| && forall t :: 0 <= t < |s| ==> |s[t]| == dh
  {
    seq(|cache|, t requires 0 <= t < |cache| => cache[t].k[from..from + dh])
  }

  function ValueStretches(cache: seq<KV>, width: nat, from: nat, dh: nat): (s: seq<seq<real>>)
    requires CacheShaped(cache, width) && from + dh <= width
    ensures |s| == |cache| && forall t :: 0 <= t < |s| ==> |s[t]| == dh
  {
    seq(|cache|, t requires 0 <= t < |cache| => cache[t].v[from..from + dh])
  }

  lemma {:induction false} StretchesAre(cache: seq<KV>, g: nat, dh: nat, n: nat)
    requires CacheShaped(cache, n * dh) && g < n
    ensures 0 <= g * dh && g * dh + dh <= n * dh
    ensures KeysOf(cache, g, dh, n) == KeyStretches(cache, n * dh, g * dh, dh)
    ensures ValuesOf(cache, g, dh, n) == ValueStretches(cache, n * dh, g * dh, dh)
  {
    FlatRowBound(g, n, dh);
    forall t | 0 <= t < |cache|
      ensures KeysOf(cache, g, dh, n)[t] == KeyStretches(cache, n * dh, g * dh, dh)[t]
      ensures ValuesOf(cache, g, dh, n)[t] == ValueStretches(cache, n * dh, g * dh, dh)[t]
    {
    }
    hide KeysOf;
    hide ValuesOf;
    hide KeyStretches;
    hide ValueStretches;
  }

  /** With groups of n_heads / n_kv_heads query heads, those of group g all attend over the elements
      [g * dh, g * dh + dh) of every cached key and value. */
  lemma {:induction false} GroupAttends(md: Model, q: seq<real>, cache: seq<KV>, g: nat, h: nat)
    requires md.Usable() && |q| == md.cfg.dModel && |cache| > 0 && CacheShaped(cache, md.KvDim()) && g < md.cfg.nKvHeads
    requires g * (md.cfg.nHeads / md.cfg.nKvHeads) <= h < (g + 1) * (md.cfg.nHeads / md.cfg.nKvHeads)
    ensures var dh := md.cfg.dModel / md.cfg.nHeads;
            && h < md.cfg.nHeads && 0 <= h * dh <= h * dh + dh <= md.cfg.dModel && 0 <= g * dh <= g * dh + dh <= md.KvDim()
            && OneHead(md, q, cache, h)
               == HeadContext(md.maths, q[h * dh..h * dh + dh], KeyStretches(cache, md.KvDim(), g * dh, dh),
                              ValueStretches(cache, md.KvDim(), g * dh, dh))
  {
    var dh, n := md.DHead(), md.cfg.nKvHeads;
    assert md.KvDim() == n * dh && dh == md.cfg.dModel / md.cfg.nHeads;
    GroupHead(md, g, h);
    HeadUnfolds(md, q, cache, h, g);
    SliceStands(q, h, dh, md.cfg.nHeads);
    hide *;
    StretchesAre(cache, g, dh, n);
  }

  lemma {:induction false} SliceStands(v: seq<real>, h: nat, dh: nat, n: nat)
    requires n * dh <= |v| && h < n
    ensures 0 <= h * dh && h * dh + dh <= |v| && HeadSlice(v, h, dh, n) == v[h * dh..h * dh + dh]
  {
    FlatRowBound(h, n, dh);
  }

  lemma {:induction false} HeadUnfolds(md: Model, q: seq<real>, cache: seq<KV>, h: nat, g: nat)
    requires md.Usable() && |q| == md.cfg.dModel && h < md.cfg.nHeads && |cache| > 0 && CacheShaped(cache, md.KvDim())
    requires g == md.KvHeadOf(h)
    ensures md.cfg.nHeads * md.DHead() <= |q| && md.KvDim() == md.cfg.nKvHeads * md.DHead()
    ensures OneHead(md, q, cache, h)
         == HeadContext(md.maths, HeadSlice(q, h, md.DHead(), md.cfg.nHeads), KeysOf(cache, g, md.DHead(), md.cfg.nKvHeads),
                        ValuesOf(cache, g, md.DHead(), md.cfg.nKvHeads))
  {
    md.Widths();
    hide HeadContext;
    hide KeysOf;
    hide ValuesOf;
    hide HeadSlice;
  }

  lemma {:induction false} GroupHead(md: Model, g: nat, h: nat)
    requires md.GroupsSupported() && g < md.cfg.nKvHeads
    requires g * (md.cfg.nHeads / md.cfg.nKvHeads) <= h < (g + 1) * (md.cfg.nHeads / md.cfg.nKvHeads)
    ensures h < md.cfg.nHeads && md.KvHeadOf(h) == g
  {
    var group := md.cfg.nHeads / md.cfg.nKvHeads;
    assert md.cfg.nHeads == md.cfg.nKvHeads * group;
    FlatIndex(g, h - g * group, md.cfg.nKvHeads, group);
  }

  /** The cache a position sees: what it and the positions before it have put in. */
  function Seen(md: Model, l: nat, h: seq<seq<real>>, t: nat): (c: seq<KV>)
    requires md.Usable() && l < md.cfg.nLayers && md.LayerOk(l) && Vectors(h, md.cfg.dModel) && t < |h|
    ensures |c| == t + 1 && CacheShaped(c, md.KvDim())
  {
    LayerCache(md, l, h[..t + 1])
  }

  lemma {:induction false} SeenAt(md: Model, l: nat, h: seq<seq<real>>, t: nat, s: nat)
    requires md.Usable() && l < md.cfg.nLayers && md.LayerOk(l) && Vectors(h, md.cfg.dModel) && s <= t < |h|
    ensures Seen(md, l, h, t)[s] == MakeKV(md, l, h[s], s)
  {
    hide MakeKV;
  }

  /** Element i of the key and value position s has cached for a query head. */
  lemma {:induction false} CachedAt(md: Model, l: nat, h: seq<seq<real>>, t: nat, s: nat, head: nat, i: nat)
    requires md.Usable() && l < md.cfg.nLayers && md.LayerOk(l) && Vectors(h, md.cfg.dModel) && s <= t < |h|
    requires head < md.cfg.nHeads && i < md.DHead()
    ensures var c, g, dh, n := Seen(md, l, h, t), md.KvHeadOf(head), md.DHead(), md.cfg.nKvHeads;
            && KeysOf(c, g, dh, n)[s][i] == Key(md, l, h[s], s, Place(SharedHead(md, head), dh, i))
            && ValuesOf(c, g, dh, n)[s][i] == Value(md, l, h[s], Place(SharedHead(md, head), dh, i))
  {
    var c, g, dh, n := Seen(md, l, h, t), md.KvHeadOf(head), md.DHead(), md.cfg.nKvHeads;
    SharedIs(md, head);
    SeenAt(md, l, h, t, s);
    KeyIs(md, l, h[s], s, g, i);
    SliceIs(c[s].k, g, dh, n, i);
    SliceIs(c[s].v, g, dh, n, i);
    hide MakeKV;
    hide Key;
    hide Value;
    hide HeadSlice;
    hide Seen;
  }

  /** The query head of position t. */
  function Asked(md: Model, l: nat, h: seq<seq<real>>, t: nat, head: nat): (q: seq<real>)
    requires md.Usable() && l < md.cfg.nLayers && md.LayerOk(l) && Vectors(h, md.cfg.dModel) && t < |h| && head < md.cfg.nHeads
    ensures |q| == md.DHead()
  {
    md.Widths();
    HeadSlice(MakeQ(md, l, h[t], t), head, md.DHead(), md.cfg.nHeads)
  }

  lemma {:induction false} AskedAt(md: Model, l: nat, h: seq<seq<real>>, t: nat, head: nat, i: nat)
    requires md.Usable() && l < md.cfg.nLayers && md.LayerOk(l) && Vectors(h, md.cfg.dModel) && t < |h| && head < md.cfg.nHeads
    requires i < md.DHead()
    ensures Asked(md, l, h, t, head)[i] == Query(md, l, h[t], t, Place(head, md.DHead(), i))
  {
    AskedUnfolds(md, l, h, t, head);
    hide *;
    QueryIs(md, l, h[t], t, head, i);
    SliceReads(MakeQ(md, l, h[t], t), head, md.DHead(), md.cfg.nHeads, i);
    ReadingAt(MakeQ(md, l, h[t], t), Place(head, md.DHead(), i));
  }

  lemma {:induction false} AskedUnfolds(md: Model, l: nat, h: seq<seq<real>>, t: nat, head: nat)
    requires md.Usable() && l < md.cfg.nLayers && md.LayerOk(l) && Vectors(h, md.cfg.dModel) && t < |h| && head < md.cfg.nHeads
    ensures md.HeadSizeOk() && |h[t]| == md.cfg.dModel && md.cfg.nHeads * md.DHead() <= md.cfg.dModel == |MakeQ(md, l, h[t], t)|
    ensures Asked(md, l, h, t, head) == HeadSlice(MakeQ(md, l, h[t], t), head, md.DHead(), md.cfg.nHeads)
  {
    md.Widths();
    hide MakeQ;
    hide HeadSlice;
  }

  lemma {:induction false} ReadingAt(v: seq<real>, i: nat)
    requires i < |v|
    ensures Reading(v)(i) == v[i]
  {
  }

  /** The keys and values a query head looks at. */
  function KeysFor(md: Model, l: nat, h: seq<seq<real>>, t: nat, head: nat): (k: seq<seq<real>>)
    requires md.Usable() && l < md.cfg.nLayers && md.LayerOk(l) && Vectors(h, md.cfg.dModel) && t < |h| && head < md.cfg.nHeads
    ensures |k| == t + 1 && forall s :: 0 <= s < |k| ==> |k[s]| == md.DHead()
  {
    KeysOf(Seen(md, l, h, t), md.KvHeadOf(head), md.DHead(), md.cfg.nKvHeads)
  }

  function ValuesFor(md: Model, l: nat, h: seq<seq<real>>, t: nat, head: nat): (v: seq<seq<real>>)
    requires md.Usable() && l < md.cfg.nLayers && md.LayerOk(l) && Vectors(h, md.cfg.dModel) && t < |h| && head < md.cfg.nHeads
    ensures |v| == t + 1 && forall s :: 0 <= s < |v| ==> |v[s]| == md.DHead()
  {
    ValuesOf(Seen(md, l, h, t), md.KvHeadOf(head), md.DHead(), md.cfg.nKvHeads)
  }

  lemma {:induction false} ScoreOf(m: Maths, q: seq<real>, keys: seq<seq<real>>, s: nat, f: nat -> real)
    requires s < |keys| && (forall t :: 0 <= t < |keys| ==> |keys[t]| == |q|)
    requires forall i :: 0 <= i < |q| ==> Times(q[i], keys[s][i]) == f(i)
    ensures Scores(m, q, keys)[s] == SumTo(|q|, f) / m.sqrt(|q| as real)
  {
    DotIs(q, keys[s], f);
    Quotient(SumTo(|q|, f), m.sqrt(|q| as real));
    hide Dot;
    hide SumTo;
  }

  lemma {:induction false} ScoreIs(md: Model, l: nat, h: seq<seq<real>>, t: nat, head: nat, s: nat)
    requires md.Usable() && l < md.cfg.nLayers && md.LayerOk(l) && Vectors(h, md.cfg.dModel) && s <= t < |h| && head < md.cfg.nHeads
    ensures Scores(md.maths, Asked(md, l, h, t, head), KeysFor(md, l, h, t, head))[s] == Score(md, l, h, t, head, s)
  {
    Layers(md, l);
    hide *;
    var q, keys, f := Asked(md, l, h, t, head), KeysFor(md, l, h, t, head), ScoreTerms(md, l, h, t, head, s);
    forall i | 0 <= i < |q|
      ensures Times(q[i], keys[s][i]) == f(i)
    {
      ScoreTermIs(md, l, h, t, head, s, i);
    }
    ScoreUnfolds(md, l, h, t, head, s);
    ScoreOf(md.maths, q, keys, s, f);
  }

  lemma {:induction false} Layers(md: Model, l: nat)
    requires md.Usable() && l < md.cfg.nLayers
    ensures md.GroupsSupported() && l < |md.w.layers| && md.cfg.nHeads > 0
  {
  }

  lemma {:induction false} ScoreUnfolds(md: Model, l: nat, h: seq<seq<real>>, t: nat, head: nat, s: nat)
    requires md.Usable() && l < |md.w.layers| && t < |h|
    ensures Score(md, l, h, t, head, s) == SumTo(md.DHead(), ScoreTerms(md, l, h, t, head, s)) / md.maths.sqrt(md.DHead() as real)
  {
    hide ScoreTerms;
    hide SumTo;
  }

  lemma {:induction false} ScoreTermIs(md: Model, l: nat, h: seq<seq<real>>, t: nat, head: nat, s: nat, i: nat)
    requires md.Usable() && l < md.cfg.nLayers && md.LayerOk(l) && Vectors(h, md.cfg.dModel) && s <= t < |h| && head < md.cfg.nHeads
    requires i < md.DHead()
    ensures Times(Asked(md, l, h, t, head)[i], KeysFor(md, l, h, t, head)[s][i]) == ScoreTerms(md, l, h, t, head, s)(i)
  {
    Layers(md, l);
    hide *;
    AskedAt(md, l, h, t, head, i);
    KeptAt(md, l, h, t, s, head, i);
    ScoreTermAt(md, l, h, t, head, s, i);
  }

  lemma {:induction false} ScoreTermAt(md: Model, l: nat, h: seq<seq<real>>, t: nat, head: nat, s: nat, i: nat)
    requires md.GroupsSupported() && l < |md.w.layers| && s <= t < |h|
    ensures ScoreTerms(md, l, h, t, head, s)(i)
         == Times(Query(md, l, h[t], t, Place(head, md.DHead(), i)), Key(md, l, h[s], s, Place(SharedHead(md, head), md.DHead(), i)))
  {
    hide Query;
    hide Key;
    hide Place;
    hide SharedHead;
  }

  lemma {:induction false} KeptAt(md: Model, l: nat, h: seq<seq<real>>, t: nat, s: nat, head: nat, i: nat)
    requires md.Usable() && l < md.cfg.nLayers && md.LayerOk(l) && Vectors(h, md.cfg.dModel) && s <= t < |h| && head < md.cfg.nHeads
    requires i < md.DHead()
    ensures KeysFor(md, l, h, t, head)[s][i] == Key(md, l, h[s], s, Place(SharedHead(md, head), md.DHead(), i))
    ensures ValuesFor(md, l, h, t, head)[s][i] == Value(md, l, h[s], Place(SharedHead(md, head), md.DHead(), i))
  {
    hide KeysOf;
    hide ValuesOf;
    hide Seen;
    hide Key;
    hide Value;
    hide Place;
    hide SharedHead;
    CachedAt(md, l, h, t, s, head, i);
  }

  lemma {:induction false} Quotient(x: real, y: real)
    requires y != 0.0
    ensures x * (1.0 / y) == x / y
  {
  }

  lemma {:induction false} AttendTermIs(md: Model, l: nat, h: seq<seq<real>>, t: nat, head: nat, i: nat, s: nat)
    requires md.Usable() && l < md.cfg.nLayers && md.LayerOk(l) && Vectors(h, md.cfg.dModel) && s <= t < |h| && head < md.cfg.nHeads
    requires i < md.DHead()
    ensures Times(Softmax(md.maths, Scores(md.maths, Asked(md, l, h, t, head), KeysFor(md, l, h, t, head)))[s], ValuesFor(md, l, h, t, head)[s][i])
         == AttendTerms(md, l, h, t, head, i)(s)
  {
    Layers(md, l);
    hide *;
    var scores, g := Scores(md.maths, Asked(md, l, h, t, head), KeysFor(md, l, h, t, head)), ScoresOf(md, l, h, t, head);
    forall u | 0 <= u < |scores|
      ensures scores[u] == g(u)
    {
      ScoreIs(md, l, h, t, head, u);
      ScoresOfAt(md, l, h, t, head, u);
    }
    ShareIs(md.maths, scores, g, s);
    KeptAt(md, l, h, t, s, head, i);
    AttendTermAt(md, l, h, t, head, i, s);
  }

  lemma {:induction false} ScoresOfAt(md: Model, l: nat, h: seq<seq<real>>, t: nat, head: nat, u: nat)
    requires md.GroupsSupported() && l < |md.w.layers| && t < |h|
    ensures ScoresOf(md, l, h, t, head)(u) == Score(md, l, h, t, head, u)
  {
    hide Score;
  }

  lemma {:induction false} AttendTermAt(md: Model, l: nat, h: seq<seq<real>>, t: nat, head: nat, i: nat, s: nat)
    requires md.GroupsSupported() && l < |md.w.layers| && s <= t < |h|
    ensures AttendTerms(md, l, h, t, head, i)(s)
         == Times(Share(md.maths, t + 1, ScoresOf(md, l, h, t, head), s), Value(md, l, h[s], Place(SharedHead(md, head), md.DHead(), i)))
  {
    hide Share;
    hide ScoresOf;
    hide Value;
    hide Place;
    hide SharedHead;
  }

  lemma {:induction false} ContextSums(m: Maths, q: seq<real>, keys: seq<seq<real>>, values: seq<seq<real>>, i: nat, f: nat -> real)
    requires |keys| == |values| > 0 && (forall t :: 0 <= t < |keys| ==> |keys[t]| == |values[t]| == |q|) && i < |q|
    requires forall s :: 0 <= s < |values| ==> Times(Softmax(m, Scores(m, q, keys))[s], values[s][i]) == f(s)
    ensures HeadContext(m, q, keys, values)[i] == SumTo(|values|, f)
  {
    hide *;
    var w := Weighted(Softmax(m, Scores(m, q, keys)), values, i, |q|);
    ContextUnfolds(m, q, keys, values, i);
    forall s | 0 <= s < |w|
      ensures w[s] == f(s)
    {
      WeightedAt(Softmax(m, Scores(m, q, keys)), values, i, |q|, s);
    }
    SumIs(w, f);
  }

  lemma {:induction false} ContextUnfolds(m: Maths, q: seq<real>, keys: seq<seq<real>>, values: seq<seq<real>>, i: nat)
    requires |keys| == |values| > 0 && (forall t :: 0 <= t < |keys| ==> |keys[t]| == |values[t]| == |q|) && i < |q|
    ensures HeadContext(m, q, keys, values)[i] == RSum(Weighted(Softmax(m, Scores(m, q, keys)), values, i, |q|))
  {
    hide Softmax;
    hide Scores;
    hide RSum;
    hide Weighted;
  }

  lemma {:induction false} WeightedAt(probs: seq<real>, values: seq<seq<real>>, i: nat, dh: nat, s: nat)
    requires |probs| == |values| && i < dh && (forall t :: 0 <= t < |values| ==> |values[t]| == dh) && s < |values|
    ensures Weighted(probs, values, i, dh)[s] == Times(probs[s], values[s][i])
  {
  }

  /** One query head takes in the values of its key/value head, each position's by its share. */
  lemma {:induction false} AttendedIs(md: Model, l: nat, h: seq<seq<real>>, t: nat, head: nat, i: nat)
    requires md.Usable() && l < md.cfg.nLayers && md.LayerOk(l) && Vectors(h, md.cfg.dModel) && t < |h| && head < md.cfg.nHeads
    requires i < md.DHead()
    ensures HeadContext(md.maths, Asked(md, l, h, t, head), KeysFor(md, l, h, t, head), ValuesFor(md, l, h, t, head))[i]
         == Attended(md, l, h, t, head, i)
  {
    Layers(md, l);
    hide *;
    var q, keys, values := Asked(md, l, h, t, head), KeysFor(md, l, h, t, head), ValuesFor(md, l, h, t, head);
    forall s | 0 <= s < |values|
      ensures Times(Softmax(md.maths, Scores(md.maths, q, keys))[s], values[s][i]) == AttendTerms(md, l, h, t, head, i)(s)
    {
      AttendTermIs(md, l, h, t, head, i, s);
    }
    ContextSums(md.maths, q, keys, values, i, AttendTerms(md, l, h, t, head, i));
    AttendedUnfolds(md, l, h, t, head, i);
  }

  lemma {:induction false} AttendedUnfolds(md: Model, l: nat, h: seq<seq<real>>, t: nat, head: nat, i: nat)
    requires md.GroupsSupported() && l < |md.w.layers| && t < |h|
    ensures Attended(md, l, h, t, head, i) == SumTo(t + 1, AttendTerms(md, l, h, t, head, i))
  {
    hide AttendTerms;
    hide SumTo;
  }

  lemma {:induction false} OneHeadIs(md: Model, l: nat, h: seq<seq<real>>, t: nat, head: nat, i: nat)
    requires md.Usable() && l < md.cfg.nLayers && md.LayerOk(l) && Vectors(h, md.cfg.dModel) && t < |h|
    requires md.HeadSizeOk() && head < md.cfg.nHeads && i < md.DHead()
    ensures OneHead(md, MakeQ(md, l, h[t], t), Seen(md, l, h, t), head)[i] == Attended(md, l, h, t, head, i)
  {
    Layers(md, l);
    AttendedIs(md, l, h, t, head, i);
    hide HeadContext;
    hide HeadSlice;
    hide KeysOf;
    hide ValuesOf;
    hide MakeQ;
    hide Seen;
    hide Attended;
  }

  lemma {:induction false} ContextSplits(md: Model, q: seq<real>, cache: seq<KV>, n: nat)
    requires md.Usable() && |q| == md.cfg.dModel && 0 < n <= md.cfg.nHeads
    requires |cache| > 0 && CacheShaped(cache, md.KvDim())
    ensures Context(md, q, cache, n) == Context(md, q, cache, n - 1) + OneHead(md, q, cache, n - 1)
    ensures |Context(md, q, cache, n - 1)| == (n - 1) * md.DHead() && |OneHead(md, q, cache, n - 1)| == md.DHead()
  {
    hide OneHead;
  }

  lemma {:induction false} ContextAt(md: Model, q: seq<real>, cache: seq<KV>, n: nat, head: nat, i: nat)
    requires md.Usable() && |q| == md.cfg.dModel && head < n <= md.cfg.nHeads && i < md.DHead()
    requires |cache| > 0 && CacheShaped(cache, md.KvDim())
    ensures Place(head, md.DHead(), i) < |Context(md, q, cache, n)|
    ensures Context(md, q, cache, n)[Place(head, md.DHead(), i)] == OneHead(md, q, cache, head)[i]
  {
    hide *;
    ContextSplits(md, q, cache, n);
    if head < n - 1 {
      ContextAt(md, q, cache, n - 1, head, i);
    } else {
      LastHead(Context(md, q, cache, n - 1), OneHead(md, q, cache, n - 1), head, md.DHead(), i);
    }
  }

  lemma {:induction false} LastHead(before: seq<real>, last: seq<real>, head: nat, dh: nat, i: nat)
    requires |before| == head * dh && i < |last|
    ensures Place(head, dh, i) < |before + last| && (before + last)[Place(head, dh, i)] == last[i]
  {
  }

  lemma {:induction false} FullContextAt(md: Model, q: seq<real>, cache: seq<KV>, j: nat)
    requires md.Usable() && |q| == md.cfg.dModel && j < md.cfg.dModel
    requires |cache| > 0 && CacheShaped(cache, md.KvDim())
    ensures var c := Context(md, q, cache, md.cfg.nHeads);
            FullContext(md, q, cache)[j] == if j < |c| then c[j] else 0.0
  {
    md.Widths();
    hide Context;
  }

  lemma {:induction false} MixedAt(md: Model, l: nat, h: seq<seq<real>>, t: nat, head: nat, i: nat)
    requires md.Usable() && l < |md.w.layers| && t < |h| && head < md.cfg.nHeads && i < md.DHead()
    ensures Mixed(md, l, h, t, Place(head, md.DHead(), i)) == Attended(md, l, h, t, head, i)
  {
    var dh, j := md.DHead(), Place(head, md.DHead(), i);
    FlatIndex(head, i, md.cfg.nHeads, dh);
    assert j / dh == head && j % dh == i && j < md.cfg.nHeads * dh;
    hide *;
    MixedInside(md, l, h, t, j);
  }

  lemma {:induction false} MixedInside(md: Model, l: nat, h: seq<seq<real>>, t: nat, j: nat)
    requires md.Usable() && l < |md.w.layers| && t < |h| && md.DHead() > 0 && j < md.cfg.nHeads * md.DHead()
    ensures Mixed(md, l, h, t, j) == Attended(md, l, h, t, j / md.DHead(), j % md.DHead())
  {
    hide Attended;
  }

  lemma {:induction false} MixedBeyond(md: Model, l: nat, h: seq<seq<real>>, t: nat, j: nat)
    requires md.Usable() && l < |md.w.layers| && t < |h| && j >= md.cfg.nHeads * md.DHead()
    ensures Mixed(md, l, h, t, j) == 0.0
  {
    hide Attended;
  }

  lemma {:induction false} ContextLength(md: Model, q: seq<real>, cache: seq<KV>)
    requires md.Usable() && |q| == md.cfg.dModel
    requires |cache| > 0 && CacheShaped(cache, md.KvDim())
    ensures md.GroupsSupported() && |Context(md, q, cache, md.cfg.nHeads)| == md.cfg.nHeads * md.DHead()
  {
    hide Context;
  }

  lemma {:induction false} HeadMixed(md: Model, l: nat, h: seq<seq<real>>, t: nat, head: nat, i: nat)
    requires md.Usable() && l < md.cfg.nLayers && md.LayerOk(l) && Vectors(h, md.cfg.dModel) && t < |h| && head < md.cfg.nHeads && i < md.DHead()
    ensures md.HeadSizeOk() && Place(head, md.DHead(), i) < md.cfg.dModel
    ensures FullContext(md, MakeQ(md, l, h[t], t), Seen(md, l, h, t))[Place(head, md.DHead(), i)] == Mixed(md, l, h, t, Place(head, md.DHead(), i))
  {
    Layers(md, l);
    assert md.HeadSizeOk();
    QueryIs(md, l, h[t], t, head, i);
    hide *;
    var q, cache, j := MakeQ(md, l, h[t], t), Seen(md, l, h, t), Place(head, md.DHead(), i);
    FullContextAt(md, q, cache, j);
    ContextAt(md, q, cache, md.cfg.nHeads, head, i);
    OneHeadIs(md, l, h, t, head, i);
    MixedAt(md, l, h, t, head, i);
  }

  /** Coordinate j of the context. */
  lemma {:induction false} MixedIs(md: Model, l: nat, h: seq<seq<real>>, t: nat, j: nat)
    requires md.Usable() && l < md.cfg.nLayers && md.LayerOk(l) && Vectors(h, md.cfg.dModel) && t < |h| && j < md.cfg.dModel
    ensures md.HeadSizeOk() && FullContext(md, MakeQ(md, l, h[t], t), Seen(md, l, h, t))[j] == Mixed(md, l, h, t, j)
  {
    Layers(md, l);
    assert md.HeadSizeOk();
    hide *;
    var q, cache, n, dh := MakeQ(md, l, h[t], t), Seen(md, l, h, t), md.cfg.nHeads, md.DHead();
    FullContextAt(md, q, cache, j);
    ContextLength(md, q, cache);
    if j < n * dh {
      var head, i := Coordinates(j, n, dh);
      HeadMixed(md, l, h, t, head, i);
    } else {
      MixedBeyond(md, l, h, t, j);
    }
  }

  lemma {:induction false} Coordinates(j: nat, n: nat, dh: nat) returns (head: nat, i: nat)
    requires j < n * dh
    ensures head < n && i < dh && j == Place(head, dh, i)
  {
    FlatSplit(j, n, dh);
    head, i := j / dh, j % dh;
  }

  lemma {:induction false} MixTermIs(md: Model, l: nat, h: seq<seq<real>>, t: nat, i: nat, k: nat)
    requires md.Usable() && l < md.cfg.nLayers && md.LayerOk(l) && Vectors(h, md.cfg.dModel) && t < |h| && k < md.cfg.dModel
    ensures md.HeadSizeOk()
    ensures MixTerms(md, l, h, t, i)(k) == Times(FullContext(md, MakeQ(md, l, h[t], t), Seen(md, l, h, t))[k], Cell(md.w.layers[l].wo, k, i))
  {
    Layers(md, l);
    MixedIs(md, l, h, t, k);
    hide FullContext;
    hide MakeQ;
    hide Seen;
    hide Mixed;
    hide Cell;
    hide Times;
  }

  /** After attention. */
  lemma {:induction false} MiddleIs(md: Model, l: nat, h: seq<seq<real>>, t: nat, i: nat)
    requires md.Usable() && l < md.cfg.nLayers && md.LayerOk(l) && Vectors(h, md.cfg.dModel) && t < |h| && i < md.cfg.dModel
    ensures md.HeadSizeOk() && md.w.layers[l].wo.Fits(md.cfg.dModel, md.cfg.dModel)
    ensures Add(h[t], VecMat(FullContext(md, MakeQ(md, l, h[t], t), Seen(md, l, h, t)), md.w.layers[l].wo))[i] == Middle(md, l, h, t, i)
  {
    Layers(md, l);
    assert md.LayerShaped(md.w.layers[l]);
    var wo := md.w.layers[l].wo;
    assert |wo.data| == wo.rows * wo.cols && wo.rows == wo.cols == md.cfg.dModel;
    assert md.HeadSizeOk();
    hide *;
    var context, f := FullContext(md, MakeQ(md, l, h[t], t), Seen(md, l, h, t)), MixTerms(md, l, h, t, i);
    forall k | 0 <= k < |context|
      ensures f(k) == Times(context[k], Cell(wo, k, i))
    {
      MixTermIs(md, l, h, t, i, k);
    }
    VecMatTimes(context, wo, i, f);
    AddAt(h[t], VecMat(context, wo), i);
    MiddleUnfolds(md, l, h, t, i);
  }

  lemma {:induction false} VecMatTimes(x: seq<real>, w: Matrix, j: nat, f: nat -> real)
    requires |w.data| == w.rows * w.cols && |x| == w.rows && j < w.cols
    requires forall i :: 0 <= i < |x| ==> f(i) == Times(x[i], Cell(w, i, j))
    ensures VecMat(x, w)[j] == SumTo(|x|, f)
  {
    hide Cell;
    VecMatIs(x, w, j, f);
    hide VecMat;
    hide SumTo;
  }

  lemma {:induction false} AddAt(x: seq<real>, y: seq<real>, i: nat)
    requires |x| == |y| && i < |x|
    ensures Add(x, y)[i] == Get(x, i) + y[i]
  {
  }

  lemma {:induction false} MiddleUnfolds(md: Model, l: nat, h: seq<seq<real>>, t: nat, i: nat)
    requires md.GroupsSupported() && l < |md.w.layers| && t < |h|
    ensures Middle(md, l, h, t, i) == Get(h[t], i) + SumTo(md.cfg.dModel, MixTerms(md, l, h, t, i))
  {
    hide MixTerms;
    hide SumTo;
  }

  /** silu(gate) * up. */
  lemma {:induction false} GatedIs(md: Model, l: nat, x: seq<real>, j: nat)
    requires md.Usable() && l < md.cfg.nLayers && |x| == md.cfg.dModel && j < md.cfg.dFf
    ensures md.LayerShaped(md.w.layers[l])
    ensures var m, layer := md.maths, md.w.layers[l];
            var n := RmsNorm(m, x, layer.ffnNorm);
            SwiGlu(m, VecMat(n, layer.wGate), VecMat(n, layer.wUp))[j] == Gated(md, l, x, j)
  {
    var m, layer := md.maths, md.w.layers[l];
    assert md.LayerShaped(layer);
    var n := RmsNorm(m, x, layer.ffnNorm);
    ProjectionIs(m, x, layer.ffnNorm, layer.wGate, j);
    ProjectionIs(m, x, layer.ffnNorm, layer.wUp, j);
    SwiGluAt(m, VecMat(n, layer.wGate), VecMat(n, layer.wUp), j);
    hide RmsNorm;
    hide VecMat;
    hide SwiGlu;
    hide SiluTimes;
    hide Projected;
  }

  lemma {:induction false} SwiGluAt(m: Maths, gate: seq<real>, up: seq<real>, j: nat)
    requires |gate| == |up| && j < |gate|
    ensures SwiGlu(m, gate, up)[j] == SiluTimes(m, gate[j], up[j])
  {
  }

  lemma {:induction false} FeedForwardIs(md: Model, l: nat, x: seq<real>, i: nat)
    requires md.Usable() && l < md.cfg.nLayers && |x| == md.cfg.dModel && i < md.cfg.dModel
    ensures FeedForward(md, l, x)[i] == Get(x, i) + SumTo(md.cfg.dFf, DownTerms(md, l, x, i))
  {
    Layers(md, l);
    var m, layer := md.maths, md.w.layers[l];
    assert md.LayerShaped(layer);
    var n := RmsNorm(m, x, layer.ffnNorm);
    var gated, f := SwiGlu(m, VecMat(n, layer.wGate), VecMat(n, layer.wUp)), DownTerms(md, l, x, i);
    assert FeedForward(md, l, x) == Add(x, VecMat(gated, layer.wDown));
    assert layer.wDown.rows == md.cfg.dFf && layer.wDown.cols == md.cfg.dModel && |layer.wDown.data| == md.cfg.dFf * md.cfg.dModel;
    hide *;
    forall j | 0 <= j < |gated|
      ensures f(j) == Times(gated[j], Cell(layer.wDown, j, i))
    {
      GatedIs(md, l, x, j);
      DownTermAt(md, l, x, i, j);
    }
    VecMatTimes(gated, layer.wDown, i, f);
    AddAt(x, VecMat(gated, layer.wDown), i);
  }

  lemma {:induction false} DownTermAt(md: Model, l: nat, x: seq<real>, i: nat, j: nat)
    requires l < |md.w.layers|
    ensures DownTerms(md, l, x, i)(j) == Times(Gated(md, l, x, j), Cell(md.w.layers[l].wDown, j, i))
  {
    hide Gated;
    hide Cell;
    hide Times;
  }

  /** A layer's output, coordinate by coordinate. */
  lemma {:induction false} BlockIs(md: Model, l: nat, h: seq<seq<real>>, t: nat, i: nat)
    requires md.Usable() && l < md.cfg.nLayers && md.LayerOk(l) && Vectors(h, md.cfg.dModel) && t < |h| && i < md.cfg.dModel
    ensures md.HeadSizeOk() && Block(md, l, h[t], Seen(md, l, h, t))[i] == After(md, l, h, t, i)
  {
    Layers(md, l);
    assert md.HeadSizeOk() && md.LayerShaped(md.w.layers[l]);
    var wo, d := md.w.layers[l].wo, md.cfg.dModel;
    assert |wo.data| == wo.rows * wo.cols && wo.rows == wo.cols == d;
    BlockUnfolds(md, l, h, t);
    hide *;
    var x := Add(h[t], VecMat(FullContext(md, MakeQ(md, l, h[t], t), Seen(md, l, h, t)), wo));
    forall k | 0 <= k < d
      ensures x[k] == Middles(md, l, h, t)[k]
    {
      MiddleIs(md, l, h, t, k);
      MiddlesAt(md, l, h, t, k);
    }
    assert x == Middles(md, l, h, t);
    FeedForwardIs(md, l, x, i);
    MiddlesAt(md, l, h, t, i);
    GetIs(x, i);
    AfterUnfolds(md, l, h, t, i);
  }

  lemma {:induction false} GetIs(x: seq<real>, i: nat)
    requires i < |x|
    ensures Get(x, i) == x[i]
  {
  }

  lemma {:induction false} MiddlesAt(md: Model, l: nat, h: seq<seq<real>>, t: nat, k: nat)
    requires md.GroupsSupported() && l < |md.w.layers| && t < |h| && k < md.cfg.dModel
    ensures Middles(md, l, h, t)[k] == Middle(md, l, h, t, k)
  {
    hide Middle;
  }

  lemma {:induction false} AfterUnfolds(md: Model, l: nat, h: seq<seq<real>>, t: nat, i: nat)
    requires md.GroupsSupported() && l < |md.w.layers| && t < |h|
    ensures After(md, l, h, t, i) == Middle(md, l, h, t, i) + SumTo(md.cfg.dFf, DownTerms(md, l, Middles(md, l, h, t), i))
  {
    hide Middle;
    hide DownTerms;
    hide Middles;
    hide SumTo;
  }

  lemma {:induction false} BlockUnfolds(md: Model, l: nat, h: seq<seq<real>>, t: nat)
    requires md.Usable() && l < md.cfg.nLayers && md.LayerOk(l) && Vectors(h, md.cfg.dModel) && t < |h|
    ensures md.HeadSizeOk() && md.w.layers[l].wo.Fits(md.cfg.dModel, md.cfg.dModel)
    ensures Block(md, l, h[t], Seen(md, l, h, t))
         == FeedForward(md, l, Add(h[t], VecMat(FullContext(md, MakeQ(md, l, h[t], t), Seen(md, l, h, t)), md.w.layers[l].wo)))
  {
    assert md.LayerShaped(md.w.layers[l]);
    hide FeedForward;
    hide FullContext;
    hide MakeQ;
    hide Seen;
    hide VecMat;
  }

  // ------------------------------------------------------------- the whole pass

  /** Coordinate i of an embedding row. */
  lemma {:induction false} EmbeddingMeans(md: Model, tokens: seq<nat>, t: nat, i: nat)
    requires md.LayersOk(0) && InVocabulary(md.cfg, tokens) && t < |tokens| && i < md.cfg.dModel
    ensures Hidden(md, tokens, 0)[t][i] == Get(md.w.embed.data, Place(tokens[t], md.cfg.dModel, i))
  {
    FlatIndex(tokens[t], i, md.cfg.vocabSize, md.cfg.dModel);
    FlatRowBound(tokens[t], md.cfg.vocabSize, md.cfg.dModel);
  }

  /** Every layer turns the hidden states into the sums above. */
  lemma {:induction false} HiddenMeans(md: Model, tokens: seq<nat>, l: nat, t: nat, i: nat)
    requires md.LayersOk(l + 1) && InVocabulary(md.cfg, tokens) && t < |tokens| && i < md.cfg.dModel
    ensures md.GroupsSupported() && l < |md.w.layers| && md.LayersOk(l)
    ensures Hidden(md, tokens, l + 1)[t][i] == After(md, l, Hidden(md, tokens, l), t, i)
  {
    assert md.LayerOk(l) && md.HeadSizeOk() && md.LayersOk(l);
    Layers(md, l);
    var h := Hidden(md, tokens, l);
    assert Vectors(h, md.cfg.dModel) && |h| == |tokens|;
    NextUnfolds(md, tokens, l, t);
    hide *;
    BlockIs(md, l, h, t, i);
  }

  lemma {:induction false} NextUnfolds(md: Model, tokens: seq<nat>, l: nat, t: nat)
    requires md.LayersOk(l + 1) && md.LayersOk(l) && md.LayerOk(l) && InVocabulary(md.cfg, tokens) && t < |tokens|
    ensures md.HeadSizeOk()
    ensures Hidden(md, tokens, l + 1)[t] == Block(md, l, Hidden(md, tokens, l)[t], Seen(md, l, Hidden(md, tokens, l), t))
  {
    HiddenStep(md, tokens, l, t);
    hide Hidden;
    hide Block;
    hide LayerCache;
  }

  /** The logits are the output projection of the normed last hidden state. */
  lemma {:induction false} LogitsMean(md: Model, tokens: seq<nat>, j: nat)
    requires md.Valid() && InVocabulary(md.cfg, tokens) && |tokens| > 0 && j < md.cfg.vocabSize
    ensures Logits(md, tokens).Some? && |Logits(md, tokens).value| == md.cfg.vocabSize
    ensures Logits(md, tokens).value[j]
         == Projected(md.maths, Hidden(md, tokens, md.cfg.nLayers)[|tokens| - 1], md.w.outputNorm, md.w.output, j)
  {
    var x := Hidden(md, tokens, md.cfg.nLayers)[|tokens| - 1];
    ProjectionIs(md.maths, x, md.w.outputNorm, md.w.output, j);
    hide Hidden;
    hide Projected;
    hide RmsNorm;
    hide VecMat;
  }

  /** What a layer adds to a coordinate: the output projection of the context and the down projection of the gated
      coordinates. */
  lemma {:induction false} LayerAdds(md: Model, tokens: seq<nat>, l: nat, t: nat, i: nat)
    requires md.LayersOk(l + 1) && InVocabulary(md.cfg, tokens) && t < |tokens| && i < md.cfg.dModel
    ensures md.GroupsSupported() && l < |md.w.layers| && md.LayersOk(l)
    ensures var h := Hidden(md, tokens, l);
            Hidden(md, tokens, l + 1)[t][i] - h[t][i]
            == SumTo(md.cfg.dModel, (k: nat) => Times(Mixed(md, l, h, t, k), Cell(md.w.layers[l].wo, k, i)))
               + SumTo(md.cfg.dFf, (j: nat) => Times(Gated(md, l, Middles(md, l, h, t), j), Cell(md.w.layers[l].wDown, j, i)))
  {
    HiddenMeans(md, tokens, l, t, i);
    var h := Hidden(md, tokens, l);
    hide Hidden;
    hide Mixed;
    hide Gated;
    hide Cell;
    hide Middles;
    hide Times;
    SumSame(md.cfg.dModel, MixTerms(md, l, h, t, i), (k: nat) => Times(Mixed(md, l, h, t, k), Cell(md.w.layers[l].wo, k, i)));
    SumSame(md.cfg.dFf, DownTerms(md, l, Middles(md, l, h, t), i),
            (j: nat) => Times(Gated(md, l, Middles(md, l, h, t), j), Cell(md.w.layers[l].wDown, j, i)));
  }

  // ------------------------------------------------------------- what follows

  ghost predicate Zero(w: Matrix) {
    forall k :: 0 <= k < |w.data| ==> w.data[k] == 0.0
  }

  lemma {:induction false} SumOfZeros(n: nat, f: nat -> real)
    requires forall i: nat :: i < n ==> f(i) == 0.0
    ensures SumTo(n, f) == 0.0
  {
    if n > 0 {
      SumOfZeros(n - 1, f);
    }
  }

  /** A layer whose output and down projections are zero passes its input on. */
  lemma {:induction false} ZeroLayer(md: Model, tokens: seq<nat>, l: nat, t: nat)
    requires md.LayersOk(l + 1) && md.LayersOk(l) && InVocabulary(md.cfg, tokens) && t < |tokens|
    requires Zero(md.w.layers[l].wo) && Zero(md.w.layers[l].wDown)
    ensures Hidden(md, tokens, l + 1)[t] == Hidden(md, tokens, l)[t]
  {
    Layers(md, l);
    var h, wo, wDown := Hidden(md, tokens, l), md.w.layers[l].wo, md.w.layers[l].wDown;
    assert forall k: nat, i: nat :: Cell(wo, k, i) == 0.0;
    assert forall k: nat, i: nat :: Cell(wDown, k, i) == 0.0;
    hide Hidden;
    hide Mixed;
    hide Gated;
    hide Middles;
    hide Cell;
    forall i | 0 <= i < md.cfg.dModel
      ensures Hidden(md, tokens, l + 1)[t][i] == h[t][i]
    {
      HiddenMeans(md, tokens, l, t, i);
      SumOfZeros(md.cfg.dModel, MixTerms(md, l, h, t, i));
      SumOfZeros(md.cfg.dFf, DownTerms(md, l, Middles(md, l, h, t), i));
    }
    assert Hidden(md, tokens, l + 1)[t] == h[t];
  }

  ghost predicate AllZero(md: Model, n: nat) {
    n <= |md.w.layers| && forall l :: 0 <= l < n ==> Zero(md.w.layers[l].wo) && Zero(md.w.layers[l].wDown)
  }

  lemma {:induction false} ZeroLayers(md: Model, tokens: seq<nat>, l: nat, t: nat)
    requires md.LayersOk(l) && InVocabulary(md.cfg, tokens) && t < |tokens| && AllZero(md, l)
    ensures Hidden(md, tokens, l)[t] == Hidden(md, tokens, 0)[t]
  {
    hide Hidden;
    hide Zero;
    if l > 0 {
      ZeroLayers(md, tokens, l - 1, t);
      ZeroLayer(md, tokens, l - 1, t);
    }
  }

  function EmbeddingRow(md: Model, token: nat): (x: seq<real>)
    ensures |x| == md.cfg.dModel
  {
    seq(md.cfg.dModel, i requires 0 <= i < md.cfg.dModel => Get(md.w.embed.data, Place(token, md.cfg.dModel, i)))
  }

  lemma {:induction false} FirstHidden(md: Model, tokens: seq<nat>, t: nat)
    requires md.LayersOk(0) && InVocabulary(md.cfg, tokens) && t < |tokens|
    ensures Hidden(md, tokens, 0)[t] == EmbeddingRow(md, tokens[t])
  {
    var x, row := Hidden(md, tokens, 0)[t], EmbeddingRow(md, tokens[t]);
    forall i | 0 <= i < md.cfg.dModel
      ensures x[i] == row[i]
    {
      EmbeddingMeans(md, tokens, t, i);
    }
    assert |x| == md.cfg.dModel;
    assert x == row;
  }

  lemma {:induction false} AllLayersOk(md: Model)
    requires md.Valid()
    ensures md.LayersOk(0) && md.LayersOk(md.cfg.nLayers)
  {
  }

  /** Without output and down projections the whole model is the final norm and output projection of the last token's
      embedding row: the residual path carries it through every layer. */
  lemma {:induction false} ResidualPath(md: Model, tokens: seq<nat>, j: nat)
    requires md.Valid() && InVocabulary(md.cfg, tokens) && |tokens| > 0 && j < md.cfg.vocabSize && AllZero(md, md.cfg.nLayers)
    ensures Logits(md, tokens).Some? && |Logits(md, tokens).value| == md.cfg.vocabSize
    ensures Logits(md, tokens).value[j]
         == Projected(md.maths, EmbeddingRow(md, tokens[|tokens| - 1]), md.w.outputNorm, md.w.output, j)
  {
    hide *;
    AllLayersOk(md);
    var last := |tokens| - 1;
    ZeroLayers(md, tokens, md.cfg.nLayers, last);
    FirstHidden(md, tokens, last);
    LogitsMean(md, tokens, j);
  }

  function ShareOf(m: Maths, n: nat, f: nat -> real): nat -> real
    requires n > 0
  {
    (s: nat) => Share(m, n, f, s)
  }

  lemma {:induction false} SharesOver(m: Maths, n: nat, f: nat -> real, k: nat)
    requires 0 < n && k <= n
    ensures SumTo(k, ShareOf(m, n, f)) == PositiveSum(m, n, f, k) / PositiveSum(m, n, f, n)
  {
    if k > 0 {
      SharesOver(m, n, f, k - 1);
      SharesNext(m, n, f, k - 1);
      hide *;
      var e := m.exp(f(k - 1) - Greatest(n, f));
      QuotientAdds(PositiveSum(m, n, f, k - 1), e, PositiveSum(m, n, f, n));
    } else {
      Nought(PositiveSum(m, n, f, n));
    }
  }

  lemma {:induction false} SharesNext(m: Maths, n: nat, f: nat -> real, k: nat)
    requires n > 0
    ensures SumTo(k + 1, ShareOf(m, n, f)) == SumTo(k, ShareOf(m, n, f)) + m.exp(f(k) - Greatest(n, f)) / PositiveSum(m, n, f, n)
    ensures PositiveSum(m, n, f, k + 1) == PositiveSum(m, n, f, k) + m.exp(f(k) - Greatest(n, f))
  {
    hide Greatest;
  }

  lemma {:induction false} QuotientAdds(x: real, y: real, z: real)
    requires z > 0.0
    ensures x / z + y / z == (x + y) / z
  {
  }

  lemma {:induction false} Nought(z: real)
    requires z > 0.0
    ensures 0.0 / z == 0.0
  {
  }

  lemma {:induction false} SharePositive(m: Maths, n: nat, f: nat -> real, s: nat)
    requires n > 0
    ensures Share(m, n, f, s) > 0.0
  {
    hide Greatest;
    hide PositiveSum;
    QuotientPositive(m.exp(f(s) - Greatest(n, f)), PositiveSum(m, n, f, n));
  }

  /** Shares stand to each other as the exponentials of the scores do. */
  lemma {:induction false} ShareRatio(m: Maths, n: nat, f: nat -> real, s: nat, t: nat)
    requires n > 0
    ensures Share(m, n, f, s) * m.exp(f(t) - Greatest(n, f)) == Share(m, n, f, t) * m.exp(f(s) - Greatest(n, f))
  {
    hide Greatest;
    hide PositiveSum;
    CrossRatio(m.exp(f(s) - Greatest(n, f)), m.exp(f(t) - Greatest(n, f)), PositiveSum(m, n, f, n));
  }

  /** The shares of the positions are positive and sum to one. */
  lemma {:induction false} SharesOfOne(m: Maths, n: nat, f: nat -> real)
    requires n > 0
    ensures forall s: nat :: s < n ==> Share(m, n, f, s) > 0.0
    ensures SumTo(n, ShareOf(m, n, f)) == 1.0
  {
    SharesOver(m, n, f, n);
    Itself(PositiveSum(m, n, f, n));
    hide SumTo;
    hide PositiveSum;
    hide Share;
    forall s: nat | s < n
      ensures Share(m, n, f, s) > 0.0
    {
      SharePositive(m, n, f, s);
    }
  }

  lemma {:induction false} Itself(x: real)
    requires x > 0.0
    ensures x / x == 1.0
  {
  }

  lemma {:induction false} SumScaled(n: nat, f: nat -> real, g: nat -> real, c: real)
    requires forall i: nat :: i < n ==> g(i) == Times(f(i), c)
    ensures SumTo(n, g) == Times(SumTo(n, f), c)
  {
    if n > 0 {
      SumScaled(n - 1, f, g, c);
    }
  }

  /** When all positions so far hold the same value, a head returns it. */
  lemma {:induction false} EqualValues(md: Model, l: nat, h: seq<seq<real>>, t: nat, head: nat, i: nat, c: real)
    requires md.Usable() && l < |md.w.layers| && t < |h|
    requires forall s :: 0 <= s <= t ==> Value(md, l, h[s], Place(SharedHead(md, head), md.DHead(), i)) == c
    ensures Attended(md, l, h, t, head, i) == c
  {
    assert md.GroupsSupported();
    hide *;
    var n, scores := t + 1, ScoresOf(md, l, h, t, head);
    var f := ShareOf(md.maths, n, scores);
    forall s: nat | s < n
      ensures AttendTerms(md, l, h, t, head, i)(s) == Times(f(s), c)
    {
      AttendTermAt(md, l, h, t, head, i, s);
      ShareOfAt(md.maths, n, scores, s);
    }
    SumScaled(n, f, AttendTerms(md, l, h, t, head, i), c);
    SharesOfOne(md.maths, n, scores);
    TimesOne(c);
    AttendedUnfolds(md, l, h, t, head, i);
  }

  lemma {:induction false} ShareOfAt(m: Maths, n: nat, f: nat -> real, s: nat)
    requires n > 0
    ensures ShareOf(m, n, f)(s) == Share(m, n, f, s)
  {
  }

  lemma {:induction false} TimesOne(c: real)
    ensures Times(1.0, c) == c
  {
  }

  lemma {:induction false} QuotientPositive(x: real, y: real)
    requires x > 0.0 && y > 0.0
    ensures x / y > 0.0
  {
  }

  lemma {:induction false} CrossRatio(x: real, y: real, z: real)
    requires z > 0.0
    ensures x / z * y == y / z * x
  {
    assert x / z * y == (x * y) / z;
    assert y / z * x == (y * x) / z;
  }
}
