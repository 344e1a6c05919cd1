module Quant {
  // Symmetric group quantisation: per-row int8 (q8) and grouped nibble-packed int4 (q4), the
  // writer's packing, the reader's unpacking, and the error they leave.

  import opened Common

  // --------------------------------------------------------------- rounding

  function Abs(x: real): real {
    if x < 0.0 then -x else x
  }

  function Ceil(x: real): int {
    -((-x).Floor)
  }

  /** Python's `round`: nearest, ties to the even integer. */
  function RoundHalfEven(x: real): (n: int)
    ensures Abs(n as real - x) <= 0.5
  {
    var f := x.Floor;
    var d := x - f as real;
    if d < 0.5 then f
    else if d > 0.5 then f + 1
    else if f % 2 == 0 then f else f + 1
  }

  /** `_round_away_from_zero`: nearest, ties away from zero. */
  function RoundAway(x: real): (n: int)
    ensures Abs(n as real - x) <= 0.5
  {
    if x >= 0.0 then (x + 0.5).Floor else Ceil(x - 0.5)
  }

  /** Each rounding rule of its name: on a tie, q4 takes the even neighbour and q8 the outer one. */
  lemma {:induction false} TieRules(x: real)
    requires x - x.Floor as real == 0.5
    ensures RoundHalfEven(x) % 2 == 0
    ensures Abs(RoundAway(x) as real) == Abs(x) + 0.5
  {
    var f := x.Floor;
    assert x == f as real + 0.5;
    if x < 0.0 {
      FloorOfInt(-f);
      assert -(x - 0.5) == (-f) as real;
    } else {
      FloorOfInt(f + 1);
      assert x + 0.5 == (f + 1) as real;
    }
  }

  lemma {:induction false} FloorOfInt(n: int)
    ensures (n as real).Floor == n
  {
  }

  // ---------------------------------------------------------------- schemes

  /** The scheme fixes the levels, the rounding rule and how many consecutive elements share a scale.
      A q8 group is a whole row. */
  datatype Scheme = Q8(cols: nat) | Q4(groupSize: nat) {
    function Group(): nat {
      match this
      case Q8(c) => c
      case Q4(g) => g
    }

    function Levels(): int {
      if Q8? then 127 else 7
    }

    function Round(x: real): (n: int)
      ensures Abs(n as real - x) <= 0.5
    {
      if Q8? then RoundAway(x) else RoundHalfEven(x)
    }
  }

  function MaxAbs(s: seq<real>): (m: real)
    ensures m >= 0.0
    ensures forall i :: 0 <= i < |s| ==> Abs(s[i]) <= m
    ensures m == 0.0 || exists i :: 0 <= i < |s| && Abs(s[i]) == m
  {
    if |s| == 0 then 0.0
    else
      var m := MaxAbs(s[..|s| - 1]);
      var a := Abs(s[|s| - 1]);
      assert forall i :: 0 <= i < |s| - 1 ==> s[..|s| - 1][i] == s[i];
      if a > m then a else m
  }

  function ScaleFor(maxAbs: real, levels: int): (s: real)
    requires levels > 0 && maxAbs >= 0.0
    ensures s > 0.0
  {
    if maxAbs > 0.0 then maxAbs / levels as real else 1.0
  }

  function Clamp(q: int, levels: int): int
    requires levels > 0
  {
    var low := if q < levels then q else levels;
    if low > -levels then low else -levels
  }

  /** Group g of a flat buffer. */
  function GroupOf(values: seq<real>, gs: nat, n: nat, g: nat): (s: seq<real>)
    requires |values| == n * gs && g < n
    ensures |s| == gs
  {
    FlatRowBound(g, n, gs);
    values[g * gs..g * gs + gs]
  }

  function Scale(sch: Scheme, values: seq<real>, n: nat, g: nat): (s: real)
    requires |values| == n * sch.Group() && g < n
    ensures s > 0.0
  {
    ScaleFor(MaxAbs(GroupOf(values, sch.Group(), n, g)), sch.Levels())
  }

  function Scales(sch: Scheme, values: seq<real>, n: nat): (s: seq<real>)
    requires |values| == n * sch.Group()
    ensures |s| == n
  {
    seq(n, g requires 0 <= g < n => Scale(sch, values, n, g))
  }

  function Ratio(v: real, scale: real): real
    requires scale > 0.0
  {
    v / scale
  }

  function CodeFor(sch: Scheme, v: real, scale: real): (q: int)
    requires scale > 0.0
    ensures -sch.Levels() <= q <= sch.Levels()
  {
    Clamp(sch.Round(Ratio(v, scale)), sch.Levels())
  }

  /** A stored code times its scale. */
  function Decode(q: int, scale: real): real {
    q as real * scale
  }

  /** The code of element e of a buffer of n groups. */
  function Code(sch: Scheme, values: seq<real>, n: nat, e: nat): (q: int)
    requires |values| == n * sch.Group() && e < |values|
    ensures -sch.Levels() <= q <= sch.Levels()
  {
    FlatSplit(e, n, sch.Group());
    CodeFor(sch, values[e], Scale(sch, values, n, e / sch.Group()))
  }

  function Codes(sch: Scheme, values: seq<real>, n: nat): (q: seq<int>)
    requires |values| == n * sch.Group()
    ensures |q| == |values|
    ensures forall e :: 0 <= e < |q| ==> -sch.Levels() <= q[e] <= sch.Levels()
  {
    seq(|values|, e requires 0 <= e < |values| => Code(sch, values, n, e))
  }

  function Dequantize(sch: Scheme, codes: seq<int>, scales: seq<real>): (v: seq<real>)
    requires |codes| == |scales| * sch.Group()
    ensures |v| == |codes|
  {
    seq(|codes|, e requires 0 <= e < |codes| => DequantizeAt(sch, codes, scales, e))
  }

  function DequantizeAt(sch: Scheme, codes: seq<int>, scales: seq<real>, e: nat): real
    requires |codes| == |scales| * sch.Group() && e < |codes|
  {
    FlatSplit(e, |scales|, sch.Group());
    Decode(codes[e], scales[e / sch.Group()])
  }

  // ------------------------------------------------------------ error bounds

  lemma {:induction false} RatioTimesScale(v: real, s: real)
    requires s > 0.0
    ensures Ratio(v, s) * s == v
  {
  }

  lemma {:induction false} ScaleTimesLevels(m: real, levels: int)
    requires levels > 0 && m >= 0.0
    ensures ScaleFor(m, levels) * levels as real == if m > 0.0 then m else levels as real
    ensures m > 0.0 ==> ScaleFor(m, levels) / 2.0 == m / (2 * levels) as real
  {
  }

  lemma {:induction false} RatioInRange(v: real, m: real, s: real, levels: int)
    requires levels > 0 && s > 0.0 && Abs(v) <= m <= s * levels as real
    ensures Abs(Ratio(v, s)) <= levels as real
  {
    var q, l := Ratio(v, s), levels as real;
    RatioTimesScale(v, s);
    hide Ratio;
    if q > l {
      MulLt(l, q, s);
    } else if -q > l {
      MulLt(l, -q, s);
    }
  }

  lemma {:induction false} MulLt(a: real, b: real, s: real)
    requires s > 0.0 && a < b
    ensures a * s < b * s
  {
  }

  /** Rounding a value of magnitude at most an integer L cannot leave [-L, L], so the clamp is idle. */
  lemma {:induction false} ClampIdle(sch: Scheme, x: real)
    requires Abs(x) <= sch.Levels() as real
    ensures Clamp(sch.Round(x), sch.Levels()) == sch.Round(x)
  {
    var r := sch.Round(x);
    assert r as real <= sch.Levels() as real + 0.5;
    assert r as real >= -(sch.Levels() as real) - 0.5;
  }

  lemma {:induction false} MulLe(a: real, b: real, s: real)
    requires s >= 0.0 && a <= b
    ensures a * s <= b * s
  {
  }

  lemma {:induction false} AbsProduct(a: real, b: real)
    ensures Abs(a * b) == Abs(a) * Abs(b)
  {
  }

  lemma {:induction false} RoundedProduct(n: int, v: real, s: real)
    requires s > 0.0 && Abs(n as real - Ratio(v, s)) <= 0.5
    ensures Abs(Decode(n, s) - v) <= s / 2.0
  {
    RatioTimesScale(v, s);
    var q, x := n as real, Ratio(v, s);
    hide Ratio;
    var d := q - x;
    var p := d * s;
    assert p == q * s - v;
    AbsProduct(d, s);
    MulLe(Abs(d), 0.5, s);
    assert Abs(s) == s;
    assert Abs(p) <= 0.5 * s;
    assert Decode(n, s) - v == p;
  }

  lemma {:induction false} CodeUnclamped(sch: Scheme, v: real, m: real, s: real)
    requires Abs(v) <= m && s == ScaleFor(m, sch.Levels())
    ensures CodeFor(sch, v, s) == sch.Round(Ratio(v, s))
  {
    ScaleTimesLevels(m, sch.Levels());
    hide ScaleFor;
    hide Ratio;
    RatioInRange(v, m, s, sch.Levels());
    ClampIdle(sch, Ratio(v, s));
  }

  /** One element: the code is the unclamped rounding and decodes to within half a scale. */
  lemma {:induction false} ElementBound(sch: Scheme, v: real, m: real, s: real)
    requires Abs(v) <= m && s == ScaleFor(m, sch.Levels())
    ensures CodeFor(sch, v, s) == sch.Round(Ratio(v, s))
    ensures Abs(Decode(CodeFor(sch, v, s), s) - v) <= s / 2.0
  {
    CodeUnclamped(sch, v, m, s);
    hide Ratio;
    hide Decode;
    hide CodeFor;
    RoundedProduct(sch.Round(Ratio(v, s)), v, s);
  }

  lemma {:induction false} ZeroElement(sch: Scheme, v: real)
    requires Abs(v) <= 0.0
    ensures v == 0.0 && CodeFor(sch, v, ScaleFor(0.0, sch.Levels())) == 0
  {
    assert Ratio(v, 1.0) == 0.0;
    assert sch.Round(0.0) == 0;
  }

  /** What the codec promises of one element v, in a group with largest magnitude m, scale s and
      stored scale s': the clamp did not fire, the decoded value is off by at most half the scale
      plus what storing the scale lost, and a group of zeros is exact. */
  ghost predicate Faithful(sch: Scheme, v: real, m: real, s: real, s': real, q: int, decoded: real)
    requires s > 0.0
  {
    && q == sch.Round(Ratio(v, s))
    && Abs(decoded - v) <= s / 2.0 + Decode(sch.Levels(), Abs(s' - s))
    && (m > 0.0 ==> s / 2.0 == m / (2 * sch.Levels()) as real)
    && (m == 0.0 ==> decoded == v == 0.0)
  }

  /** Quantise, then dequantise with the scales as stored. */
  lemma {:induction false} QuantizationBound(sch: Scheme, values: seq<real>, n: nat, stored: seq<real>, e: nat)
    requires |values| == n * sch.Group() && |stored| == n && e < |values|
    ensures sch.Group() > 0 && e / sch.Group() < n
    ensures var g := e / sch.Group();
            Faithful(sch, values[e], MaxAbs(GroupOf(values, sch.Group(), n, g)), Scale(sch, values, n, g), stored[g],
                     Code(sch, values, n, e), Dequantize(sch, Codes(sch, values, n), stored)[e])
  {
    hide *;
    MemberOfGroup(values, sch.Group(), n, e);
    CodeIs(sch, values, n, e);
    DecodedElement(sch, values, n, stored, e);
    var g := e / sch.Group();
    GroupBound(sch, values[e], MaxAbs(GroupOf(values, sch.Group(), n, g)), Scale(sch, values, n, g), stored[g],
               Code(sch, values, n, e), Dequantize(sch, Codes(sch, values, n), stored)[e]);
  }

  lemma {:induction false} GroupBound(sch: Scheme, v: real, m: real, s: real, s': real, q: int, decoded: real)
    requires Abs(v) <= m && s == ScaleFor(m, sch.Levels())
    requires q == CodeFor(sch, v, s) && decoded == Decode(q, s')
    ensures Faithful(sch, v, m, s, s', q, decoded)
  {
    ScaleTimesLevels(m, sch.Levels());
    if m == 0.0 {
      ZeroElement(sch, v);
    }
    hide CodeFor;
    hide ScaleFor;
    hide Ratio;
    BoundFor(sch, v, m, s, s');
  }

  lemma {:induction false} BoundFor(sch: Scheme, v: real, m: real, s: real, s': real)
    requires Abs(v) <= m && s == ScaleFor(m, sch.Levels())
    ensures CodeFor(sch, v, s) == sch.Round(Ratio(v, s))
    ensures Abs(Decode(CodeFor(sch, v, s), s') - v) <= s / 2.0 + Decode(sch.Levels(), Abs(s' - s))
  {
    ElementBound(sch, v, m, s);
    hide *;
    StoredScale(CodeFor(sch, v, s), s, s', v, sch.Levels());
  }

  lemma {:induction false} CodeIs(sch: Scheme, values: seq<real>, n: nat, e: nat)
    requires |values| == n * sch.Group() && e < |values|
    ensures sch.Group() > 0 && e / sch.Group() < n
    ensures Code(sch, values, n, e) == CodeFor(sch, values[e], Scale(sch, values, n, e / sch.Group()))
    ensures Scale(sch, values, n, e / sch.Group())
         == ScaleFor(MaxAbs(GroupOf(values, sch.Group(), n, e / sch.Group())), sch.Levels())
  {
    FlatSplit(e, n, sch.Group());
    hide CodeFor;
    hide GroupOf;
    hide ScaleFor;
  }

  lemma {:induction false} DecodedElement(sch: Scheme, values: seq<real>, n: nat, stored: seq<real>, e: nat)
    requires |values| == n * sch.Group() && |stored| == n && e < |values|
    ensures sch.Group() > 0 && e / sch.Group() < n
    ensures Dequantize(sch, Codes(sch, values, n), stored)[e]
         == Decode(Code(sch, values, n, e), stored[e / sch.Group()])
  {
    FlatSplit(e, n, sch.Group());
    hide Code;
    DequantizedAt(sch, Codes(sch, values, n), stored, e);
    hide Dequantize;
  }

  lemma {:induction false} DequantizedAt(sch: Scheme, codes: seq<int>, scales: seq<real>, e: nat)
    requires |codes| == |scales| * sch.Group() && e < |codes|
    ensures sch.Group() > 0 && e / sch.Group() < |scales|
    ensures Dequantize(sch, codes, scales)[e] == Decode(codes[e], scales[e / sch.Group()])
  {
    FlatSplit(e, |scales|, sch.Group());
  }

  lemma {:induction false} MemberOfGroup(values: seq<real>, gs: nat, n: nat, e: nat)
    requires |values| == n * gs && e < |values|
    ensures gs > 0 && e / gs < n
    ensures Abs(values[e]) <= MaxAbs(GroupOf(values, gs, n, e / gs))
  {
    FlatSplit(e, n, gs);
    FlatRowBound(e / gs, n, gs);
    var i := e % gs;
    assert GroupOf(values, gs, n, e / gs)[i] == values[e];
  }

  lemma {:induction false} StoredScale(q: int, s: real, s': real, v: real, levels: int)
    requires -levels <= q <= levels && s > 0.0
    requires Abs(Decode(q, s) - v) <= s / 2.0
    ensures Abs(Decode(q, s') - v) <= s / 2.0 + Decode(levels, Abs(s' - s))
  {
    var a, d := q as real, s' - s;
    var p, r := Decode(q, s) - v, a * d;
    assert Decode(q, s') - v == p + r;
    AbsProduct(a, d);
    MulLe(Abs(a), levels as real, Abs(d));
    assert Abs(r) <= Decode(levels, Abs(d));
    hide Decode;
    assert Abs(p + r) <= Abs(p) + Abs(r);
  }
}
