/** Vectors, matrices and the scalar functions of the reference transformer. */
module LinearAlgebra {
  import opened Common

  type Positive = r: real | r > 0.0 witness 1.0

  /** The transcendental functions the reference pass calls; nothing but their sign is assumed. */
  datatype Maths = Maths(
    sqrt: real -> Positive,
    exp: real -> Positive,
    pow: (real, real) -> Positive,
    cos: real -> real,
    sin: real -> real)

  /** A two-dimensional array in row-major order. */
  datatype Matrix = Matrix(rows: nat, cols: nat, data: seq<real>) {
    ghost predicate Fits(r: nat, c: nat) {
      rows == r && cols == c && |data| == r * c
    }
  }

  function Products(x: seq<real>, y: seq<real>): (p: seq<real>)
    requires |x| == |y|
    ensures |p| == |x|
  {
    seq(|x|, i requires 0 <= i < |x| => x[i] * y[i])
  }

  function Dot(x: seq<real>, y: seq<real>): real
    requires |x| == |y|
  {
    RSum(Products(x, y))
  }

  function Add(x: seq<real>, y: seq<real>): (s: seq<real>)
    requires |x| == |y|
    ensures |s| == |x|
  {
    seq(|x|, i requires 0 <= i < |x| => x[i] + y[i])
  }

  /** Column j of a matrix. */
  function Column(w: Matrix, j: nat): (c: seq<real>)
    requires |w.data| == w.rows * w.cols && j < w.cols
    ensures |c| == w.rows
  {
    seq(w.rows, i requires 0 <= i < w.rows => At(w, i, j))
  }

  function At(w: Matrix, i: nat, j: nat): real
    requires |w.data| == w.rows * w.cols && i < w.rows && j < w.cols
  {
    FlatIndex(i, j, w.rows, w.cols);
    w.data[i * w.cols + j]
  }

  /** `x @ w` for a vector x. */
  function VecMat(x: seq<real>, w: Matrix): (y: seq<real>)
    requires |w.data| == w.rows * w.cols && |x| == w.rows
    ensures |y| == w.cols
  {
    seq(w.cols, j requires 0 <= j < w.cols => Dot(x, Column(w, j)))
  }

  const EPS := 0.000001

  function RmsNorm(m: Maths, x: seq<real>, weight: seq<real>): (y: seq<real>)
    requires |x| == |weight| > 0
    ensures |y| == |x|
  {
    var rms := m.sqrt(Dot(x, x) / |x| as real + EPS);
    seq(|x|, i requires 0 <= i < |x| => x[i] / rms * weight[i])
  }

  function Silu(m: Maths, x: real): real {
    x / (1.0 + m.exp(-x))
  }

  function SwiGlu(m: Maths, gate: seq<real>, up: seq<real>): (y: seq<real>)
    requires |gate| == |up|
    ensures |y| == |gate|
  {
    seq(|gate|, i requires 0 <= i < |gate| => Silu(m, gate[i]) * up[i])
  }

  function Max(x: seq<real>): real
    requires |x| > 0
  {
    if |x| == 1 then x[0]
    else
      var m := Max(x[..|x| - 1]);
      if x[|x| - 1] > m then x[|x| - 1] else m
  }

  function Softmax(m: Maths, x: seq<real>): (y: seq<real>)
    requires |x| > 0
    ensures |y| == |x|
  {
    var e := seq(|x|, i requires 0 <= i < |x| => m.exp(x[i] - Max(x)) as real);
    RSumPositive(e);
    var total := RSum(e);
    seq(|x|, i requires 0 <= i < |x| => e[i] / total)
  }

  /** The rotation angle of the pair that starts at even index i. */
  function RopeAngle(m: Maths, i: nat, count: nat, position: nat, theta: real): real
    requires count > 0
  {
    var exponent := i as real / count as real;
    position as real * (1.0 / m.pow(theta, exponent))
  }

  function Rope(m: Maths, v: seq<real>, position: nat, theta: real): (r: seq<real>)
    requires |v| % 2 == 0
    ensures |r| == |v|
  {
    seq(|v|, i requires 0 <= i < |v| =>
      var pair := i - i % 2;
      var angle := RopeAngle(m, pair, |v|, position, theta);
      if i % 2 == 0 then v[pair] * m.cos(angle) - v[pair + 1] * m.sin(angle)
      else v[pair] * m.sin(angle) + v[pair + 1] * m.cos(angle))
  }

  lemma {:induction false} RopePair(m: Maths, v: seq<real>, position: nat, theta: real, i: nat)
    requires |v| % 2 == 0 && i % 2 == 0 && i + 1 < |v|
    ensures var angle := RopeAngle(m, i, |v|, position, theta);
            && Rope(m, v, position, theta)[i] == v[i] * m.cos(angle) - v[i + 1] * m.sin(angle)
            && Rope(m, v, position, theta)[i + 1] == v[i] * m.sin(angle) + v[i + 1] * m.cos(angle)
  {
    hide RopeAngle;
  }

  /** `_rope`: rotate a copy pair by pair. */
  method RopeByLoop(m: Maths, v: seq<real>, position: nat, theta: real) returns (out: seq<real>)
    requires |v| % 2 == 0
    ensures out == Rope(m, v, position, theta)
  {
    hide Rope;
    hide RopeAngle;
    out := v;
    ghost var want := Rope(m, v, position, theta);
    var i := 0;
    while i < |v|
      invariant 0 <= i <= |v| == |out| && i % 2 == 0
      invariant forall k :: 0 <= k < i ==> out[k] == want[k]
    {
      RopePair(m, v, position, theta, i);
      var angle := RopeAngle(m, i, |v|, position, theta);
      var c, s := m.cos(angle), m.sin(angle);
      var x0, x1 := v[i] * c - v[i + 1] * s, v[i] * s + v[i + 1] * c;
      assert x0 == want[i] && x1 == want[i + 1];
      out := out[i := x0][i + 1 := x1];
      i := i + 2;
    }
  }
}
