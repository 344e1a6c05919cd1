/** Bf16 rounding. */
module Bf16 {
  // Rounding f32 activations to bf16 by integer arithmetic on their bit patterns, and the error study on it.

  import opened Common
  import opened Bytes

  const GRID := 0x1_0000
  const BINADE := 0x80_0000
  const SIGN := 0x8000_0000
  const INFINITE := 0x7F80_0000

  // ------------------------------------------------------------- patterns

  /** `_round_f32_to_bf16` on the bit pattern: add just under half a grid step, plus the lowest kept bit,
      and mask the low sixteen bits. */
  function RoundBits(bits: Pattern): (r: Pattern)
    ensures r % GRID == 0
  {
    var lsb := (bits / GRID) % 2;
    var rounded := bits + 0x7FFF + lsb;
    ((rounded / GRID) % GRID) * GRID
  }

  function Magnitude(bits: Pattern): (m: nat)
    ensures m < SIGN
  {
    bits % SIGN
  }

  predicate Negative(bits: Pattern) {
    bits >= SIGN
  }

  /** A finite number with a full significand. */
  predicate Normal(bits: Pattern) {
    BINADE <= Magnitude(bits) < INFINITE
  }

  /** The same rounding on a magnitude. */
  function RoundMagnitude(m: nat): (r: nat) {
    ((m + 0x7FFF + (m / GRID) % 2) / GRID) * GRID
  }

  lemma {:induction false} SignDivides(m: nat)
    ensures (m + SIGN) / GRID == m / GRID + 0x8000
  {
  }

  lemma {:induction false} RoundKeepsSign(bits: Pattern)
    requires Magnitude(bits) < INFINITE
    ensures Negative(RoundBits(bits)) == Negative(bits) && Magnitude(RoundBits(bits)) == RoundMagnitude(Magnitude(bits))
    ensures RoundMagnitude(Magnitude(bits)) <= INFINITE
  {
    var m := Magnitude(bits);
    if Negative(bits) {
      assert bits == m + SIGN;
      RoundNegative(m);
    } else {
      assert bits == m;
      RoundPositive(m);
    }
  }

  lemma {:induction false} RoundPositive(m: nat)
    requires m < INFINITE
    ensures RoundMagnitude(m) <= INFINITE && RoundBits(m) == RoundMagnitude(m)
  {
    var q := (m + 0x7FFF + (m / GRID) % 2) / GRID;
    assert q <= 0x7F80;
  }

  lemma {:induction false} RoundNegative(m: nat)
    requires m < INFINITE
    ensures RoundMagnitude(m) <= INFINITE && RoundBits(m + SIGN) == RoundMagnitude(m) + SIGN
  {
    var lsb := (m / GRID) % 2;
    var q := (m + 0x7FFF + lsb) / GRID;
    assert q <= 0x7F80;
    SignDivides(m);
    assert ((m + SIGN) / GRID) % 2 == lsb;
    SignDivides(m + 0x7FFF + lsb);
    assert (m + SIGN + 0x7FFF + lsb) / GRID == q + 0x8000;
  }

  /** The rounded magnitude is a grid point at most half a step away, even on ties, and never leaves the
      binade except for the first point of the next one. */
  lemma {:induction false} RoundsToNearestGrid(m: nat)
    ensures var r := RoundMagnitude(m);
            && r % GRID == 0 && -0x8000 <= r - m <= 0x8000
            && (m % GRID == 0x8000 ==> (r / GRID) % 2 == 0)
            && (m % GRID < 0x8000 ==> r == m - m % GRID) && (m % GRID > 0x8000 ==> r == m - m % GRID + GRID)
            && r / BINADE * BINADE <= r
            && m / BINADE * BINADE <= r <= (m / BINADE + 1) * BINADE
  {
    var q, f, r := m / GRID, m % GRID, RoundMagnitude(m);
    assert m == q * GRID + f;
    RoundsTo(m, q, f);
    hide RoundMagnitude;
    var k := r / GRID;
    assert r == k * GRID && q <= k <= q + 1;
    StaysInBinade(m, q, f, k);
  }

  lemma {:induction false} RoundsTo(m: nat, q: nat, f: nat)
    requires m == q * GRID + f && f < GRID
    ensures RoundMagnitude(m) == (if f < 0x8000 || (f == 0x8000 && q % 2 == 0) then q else q + 1) * GRID
  {
    assert m / GRID == q;
    if f < 0x8000 || (f == 0x8000 && q % 2 == 0) {
      assert (m + 0x7FFF + q % 2) / GRID == q;
    } else {
      assert (m + 0x7FFF + q % 2) / GRID == q + 1;
    }
  }

  lemma {:induction false} StaysInBinade(m: nat, q: nat, f: nat, k: nat)
    requires m == q * GRID + f && f < GRID && q <= k <= q + 1
    ensures m / BINADE * BINADE <= k * GRID <= (m / BINADE + 1) * BINADE
  {
    assert m / BINADE == q / 128;
    assert q / 128 * 128 <= q < (q / 128 + 1) * 128;
  }

  /** Exactly the magnitudes from 0x7F7F8000 on round to infinity. */
  lemma {:induction false} OverflowsIff(m: nat)
    requires m < INFINITE
    ensures RoundMagnitude(m) == INFINITE <==> m >= 0x7F7F_8000
  {
    var q, f := m / GRID, m % GRID;
    RoundsToNearestGrid(m);
    assert m == q * GRID + f;
  }

  /** Every pattern whose low half is zero, which is what widening a bf16 value yields, is left alone:
      numbers, infinities and NaNs alike. */
  lemma {:induction false} RoundInvertsWidening(half: nat)
    requires half < GRID
    ensures RoundBits(half * GRID) == half * GRID
  {
    assert (half * GRID) / GRID == half;
    assert (half * GRID + 0x7FFF + half % 2) / GRID == half;
  }

  lemma {:induction false} RoundIdempotent(bits: Pattern)
    ensures RoundBits(RoundBits(bits)) == RoundBits(bits)
  {
    var r := RoundBits(bits);
    assert r == (r / GRID) * GRID;
    RoundInvertsWidening(r / GRID);
  }

  /** `_coerce_bf16`: zero-extend each two-byte value on the right. */
  method CoerceBf16(raw: seq<Byte>) returns (patterns: seq<Pattern>)
    ensures |patterns| == |raw| / 2
    ensures forall i :: 0 <= i < |patterns| ==> patterns[i] == FromLe([raw[2 * i], raw[2 * i + 1]]) * GRID && RoundBits(patterns[i]) == patterns[i]
  {
    patterns := [];
    for i := 0 to |raw| / 2
      invariant |patterns| == i
      invariant forall k :: 0 <= k < i ==> patterns[k] == FromLe([raw[2 * k], raw[2 * k + 1]]) * GRID && RoundBits(patterns[k]) == patterns[k]
    {
      var b0, b1 := raw[2 * i], raw[2 * i + 1];
      FourBytes(b0, b1);
      RoundInvertsWidening(FromLe([b0, b1]));
      patterns := patterns + [FromLe([0, 0, b0, b1])];
    }
  }

  lemma {:induction false} FourBytes(b0: Byte, b1: Byte)
    ensures FromLe([b0, b1]) == b0 + 256 * b1 < GRID
    ensures FromLe([0, 0, b0, b1]) == FromLe([b0, b1]) * GRID
  {
    assert [0, 0, b0, b1][1..] == [0, b0, b1] && [0, b0, b1][1..] == [b0, b1] && [b0, b1][1..] == [b1] && [b1][1..] == [];
    assert FromLe([b1]) == b1;
  }

  // --------------------------------------------------------------- values

  function Pow2(k: int): (p: real)
    ensures p > 0.0
    decreases if k < 0 then -k else k
  {
    if k == 0 then 1.0 else if k > 0 then 2.0 * Pow2(k - 1) else Pow2(k + 1) / 2.0
  }

  lemma {:induction false} Pow2Next(k: int)
    ensures Pow2(k + 1) == 2.0 * Pow2(k)
  {
  }

  function Times(p: real, n: int): real {
    p * n as real
  }

  /** The value of a normal magnitude: exponent field e, significand 2^23 plus the fraction field. */
  function Value(m: nat): real {
    Times(Pow2(m / BINADE - 150), BINADE + m % BINADE)
  }

  function ValueOf(bits: Pattern): real {
    if Negative(bits) then -Value(Magnitude(bits)) else Value(Magnitude(bits))
  }

  lemma {:induction false} TimesMonotone(p: real, a: int, b: int)
    requires p > 0.0 && a <= b
    ensures Times(p, a) <= Times(p, b)
    ensures a < b ==> Times(p, a) < Times(p, b)
  {
    assert p * (b as real - a as real) >= 0.0;
    if a < b {
      assert p * (b as real - a as real) > 0.0;
    }
  }

  lemma {:induction false} TimesMinus(p: real, a: int, b: int)
    ensures Times(p, a) - Times(p, b) == Times(p, a - b)
    ensures Times(2.0 * p, a) == Times(p, 2 * a)
    ensures Times(p, 256 * a) == 256.0 * Times(p, a)
  {
  }

  /** Values are linear in the magnitude over a whole binade, its right end included. */
  lemma {:induction false} LinearInBinade(e: nat, m: nat)
    requires e * BINADE <= m <= (e + 1) * BINADE
    ensures Value(m) == Times(Pow2(e - 150), m - e * BINADE + BINADE)
  {
    if m == (e + 1) * BINADE {
      assert m / BINADE == e + 1 && m % BINADE == 0;
      Pow2Next(e - 150);
      TimesMinus(Pow2(e - 150), BINADE, 0);
    } else {
      assert m / BINADE == e && m % BINADE == m - e * BINADE;
    }
  }

  lemma {:induction false} ValueMonotone(a: nat, b: nat)
    requires a <= b
    ensures Value(a) <= Value(b)
    ensures a < b ==> Value(a) < Value(b)
    decreases b - a
  {
    var e := a / BINADE;
    var next := (e + 1) * BINADE;
    LinearInBinade(e, a);
    if b <= next {
      LinearInBinade(e, b);
      TimesMonotone(Pow2(e - 150), a - e * BINADE + BINADE, b - e * BINADE + BINADE);
    } else {
      LinearInBinade(e, next);
      TimesMonotone(Pow2(e - 150), a - e * BINADE + BINADE, next - e * BINADE + BINADE);
      ValueMonotone(next, b);
    }
  }

  lemma {:induction false} ValuePositive(m: nat)
    ensures Value(m) > 0.0
  {
    TimesMonotone(Pow2(m / BINADE - 150), 0, BINADE + m % BINADE);
    assert Times(Pow2(m / BINADE - 150), 0) == 0.0;
  }

  function Distance(x: real, y: real): (d: real)
    ensures d >= 0.0
  {
    if x >= y then x - y else y - x
  }

  /** The step from m to a point of its binade, in value. */
  lemma {:induction false} DistanceInBinade(e: nat, m: nat, r: nat)
    requires e * BINADE <= m <= (e + 1) * BINADE && e * BINADE <= r <= (e + 1) * BINADE
    ensures Distance(Value(r), Value(m)) == Times(Pow2(e - 150), if r >= m then r - m else m - r)
  {
    LinearInBinade(e, m);
    LinearInBinade(e, r);
    var p := Pow2(e - 150);
    TimesMinus(p, r - e * BINADE + BINADE, m - e * BINADE + BINADE);
    TimesMinus(p, m - e * BINADE + BINADE, r - e * BINADE + BINADE);
    if r >= m {
      TimesMonotone(p, m - e * BINADE + BINADE, r - e * BINADE + BINADE);
    } else {
      TimesMonotone(p, r - e * BINADE + BINADE, m - e * BINADE + BINADE);
    }
    hide Pow2;
    hide Times;
    hide Value;
  }

  /** The rounding error is at most 2^-8 of the magnitude. */
  lemma {:induction false} MagnitudeError(m: nat)
    ensures 256.0 * Distance(Value(RoundMagnitude(m)), Value(m)) <= Value(m)
  {
    var e, r := m / BINADE, RoundMagnitude(m);
    RoundsToNearestGrid(m);
    hide RoundMagnitude;
    DistanceInBinade(e, m, r);
    LinearInBinade(e, m);
    var p, d := Pow2(e - 150), if r >= m then r - m else m - r;
    TimesMinus(p, d, 0);
    TimesMonotone(p, 256 * d, m - e * BINADE + BINADE);
    hide Pow2;
    hide Times;
    hide Value;
  }

  /** No grid point is nearer in value than the rounded one. */
  lemma {:induction false} MagnitudeNearest(m: nat, g: nat)
    requires g % GRID == 0
    ensures Distance(Value(RoundMagnitude(m)), Value(m)) <= Distance(Value(g), Value(m))
  {
    var e, r := m / BINADE, RoundMagnitude(m);
    RoundsToNearestGrid(m);
    GridNeighbours(m, g);
    var low, high := m - m % GRID, m - m % GRID + GRID;
    hide RoundMagnitude;
    var p := Pow2(e - 150);
    DistanceInBinade(e, m, r);
    if g <= m {
      DistanceInBinade(e, m, low);
      TimesMonotone(p, if r >= m then r - m else m - r, m - low);
      ValueMonotone(g, low);
      ValueMonotone(low, m);
    } else {
      DistanceInBinade(e, m, high);
      TimesMonotone(p, if r >= m then r - m else m - r, high - m);
      ValueMonotone(high, g);
      ValueMonotone(m, high);
    }
    hide Pow2;
    hide Times;
    hide Value;
  }

  lemma {:induction false} GridNeighbours(m: nat, g: nat)
    requires g % GRID == 0
    ensures var low := m - m % GRID;
            && m / BINADE * BINADE <= low <= m < low + GRID <= (m / BINADE + 1) * BINADE
            && (g <= m ==> g <= low) && (g > m ==> g >= low + GRID)
  {
    var q, k := m / GRID, g / GRID;
    assert m / BINADE == q / 128;
    assert q / 128 * 128 <= q < (q / 128 + 1) * 128;
    assert g == k * GRID && m == q * GRID + m % GRID;
    if g <= m {
      assert k <= q;
    } else {
      assert k >= q + 1;
    }
  }

  lemma {:induction false} GridGap(r: int, s: int)
    requires r % GRID == 0 && s % GRID == 0
    ensures r <= s || s + GRID <= r
  {
  }

  lemma {:induction false} RoundMonotone(a: nat, b: nat)
    requires a <= b
    ensures RoundMagnitude(a) <= RoundMagnitude(b)
  {
    RoundsToNearestGrid(a);
    RoundsToNearestGrid(b);
    GridGap(RoundMagnitude(a), RoundMagnitude(b));
  }

  // ---------------------------------------------------------- main theorems

  /** A sample the study can meet: a normal number that does not round to infinity. */
  predicate Sample(bits: Pattern) {
    BINADE <= Magnitude(bits) < 0x7F7F_8000
  }

  /** A larger sample never rounds to a smaller value. */
  lemma {:induction false} RoundingIsMonotone(a: Pattern, b: Pattern)
    requires Sample(a) && Sample(b) && ValueOf(a) <= ValueOf(b)
    ensures ValueOf(RoundBits(a)) <= ValueOf(RoundBits(b))
  {
    RoundKeepsSign(a);
    RoundKeepsSign(b);
    var x, y := Magnitude(a), Magnitude(b);
    hide RoundMagnitude;
    hide RoundBits;
    hide Value;
    hide Magnitude;
    ValuePositive(x);
    ValuePositive(y);
    ValuePositive(RoundMagnitude(x));
    ValuePositive(RoundMagnitude(y));
    if !Negative(a) && !Negative(b) {
      if x > y {
        ValueMonotone(y, x);
      }
      RoundMonotone(x, y);
      ValueMonotone(RoundMagnitude(x), RoundMagnitude(y));
    } else if Negative(a) && Negative(b) {
      if x < y {
        ValueMonotone(x, y);
      }
      RoundMonotone(y, x);
      ValueMonotone(RoundMagnitude(y), RoundMagnitude(x));
    }
  }

  function AbsValue(x: real): real {
    if x >= 0.0 then x else -x
  }

  lemma {:induction false} RoundedShape(bits: Pattern)
    requires Sample(bits)
    ensures Normal(RoundBits(bits)) && Negative(RoundBits(bits)) == Negative(bits)
    ensures Magnitude(RoundBits(bits)) == RoundMagnitude(Magnitude(bits))
  {
    var m := Magnitude(bits);
    RoundKeepsSign(bits);
    OverflowsIff(m);
    RoundMonotone(BINADE, m);
    assert RoundMagnitude(BINADE) == BINADE;
    hide RoundBits;
    hide RoundMagnitude;
  }

  /** Distances between signed values: signs that agree cancel, signs that differ add the magnitudes. */
  lemma {:induction false} SignedDistance(a: Pattern, b: Pattern)
    ensures Negative(a) == Negative(b) ==> Distance(ValueOf(a), ValueOf(b)) == Distance(Value(Magnitude(a)), Value(Magnitude(b)))
    ensures Negative(a) != Negative(b) ==> Distance(ValueOf(a), ValueOf(b)) == Value(Magnitude(a)) + Value(Magnitude(b))
    ensures AbsValue(ValueOf(b)) == Value(Magnitude(b)) > 0.0 && Value(Magnitude(a)) > 0.0
  {
    ValuePositive(Magnitude(a));
    ValuePositive(Magnitude(b));
    hide Value;
    hide Magnitude;
  }

  lemma {:induction false} GridMagnitude(g: Pattern)
    requires g % GRID == 0
    ensures Magnitude(g) % GRID == 0
  {
  }

  /** Round to nearest, section 4.3.1 of IEEE 754-2019: the result is a finite bf16 number of the same sign,
      within 2^-8 of the sample's magnitude, and no finite bf16 number is nearer. */
  lemma {:induction false} RoundingIsNearest(bits: Pattern, other: Pattern)
    requires Sample(bits) && Normal(other) && other % GRID == 0
    ensures Normal(RoundBits(bits)) && Negative(RoundBits(bits)) == Negative(bits)
    ensures 256.0 * Distance(ValueOf(RoundBits(bits)), ValueOf(bits)) <= AbsValue(ValueOf(bits))
    ensures Distance(ValueOf(RoundBits(bits)), ValueOf(bits)) <= Distance(ValueOf(other), ValueOf(bits))
  {
    hide *;
    RoundedShape(bits);
    MagnitudeError(Magnitude(bits));
    GridMagnitude(other);
    MagnitudeNearest(Magnitude(bits), Magnitude(other));
    SignedDistance(RoundBits(bits), bits);
    SignedDistance(other, bits);
  }

  // ------------------------------------------------------------------ study

  /** The sample is a double; only its f32 pattern is rounded. */
  function Error(c: F32, x: real): real {
    Distance(ValueOf(RoundBits(c.pack(x))), x)
  }

  /** Relative to the magnitude, but never to less than a millionth. */
  function RelativeError(c: F32, x: real): real {
    var a := AbsValue(x);
    Error(c, x) / (if a >= 0.000001 then a else 0.000001)
  }

  function Errors(c: F32, samples: seq<real>): (e: seq<real>)
    ensures |e| == |samples|
  {
    seq(|samples|, i requires 0 <= i < |samples| => Error(c, samples[i]))
  }

  function RelativeErrors(c: F32, samples: seq<real>): (e: seq<real>)
    ensures |e| == |samples|
  {
    seq(|samples|, i requires 0 <= i < |samples| => RelativeError(c, samples[i]))
  }

  function Squares(s: seq<real>): (q: seq<real>)
    ensures |q| == |s|
  {
    seq(|s|, i requires 0 <= i < |s| => s[i] * s[i])
  }

  function Largest(s: seq<real>): (m: real)
    requires |s| > 0
    ensures (exists i :: 0 <= i < |s| && s[i] == m) && forall i :: 0 <= i < |s| ==> s[i] <= m
  {
    if |s| == 1 then s[0]
    else
      var m := Largest(s[..|s| - 1]);
      assert forall i :: 0 <= i < |s| - 1 ==> s[i] == s[..|s| - 1][i];
      if s[|s| - 1] > m then s[|s| - 1] else m
  }

  function Mean(s: seq<real>): real
    requires |s| > 0
  {
    RSum(s) / |s| as real
  }

  datatype Study = Study(maxError: real, rms: real, maxRelative: real, mean: real)

  function StudyOf(c: F32, sqrt: real -> real, samples: seq<real>): Study
    requires |samples| > 0
  {
    var errors := Errors(c, samples);
    Study(Largest(errors), sqrt(Mean(Squares(errors))), Largest(RelativeErrors(c, samples)), Mean(errors))
  }

  /** `_numeric_study`, with the mean square in place of its root. */
  method NumericStudy(c: F32, sqrt: real -> real, samples: seq<real>) returns (s: Study)
    requires |samples| > 0
    ensures s == StudyOf(c, sqrt, samples)
  {
    var errors, relative: seq<real> := [], [];
    hide Error;
    hide RelativeError;
    hide Largest;
    hide Mean;
    hide Squares;
    for i := 0 to |samples|
      invariant errors == Errors(c, samples)[..i] && relative == RelativeErrors(c, samples)[..i]
    {
      errors := errors + [Error(c, samples[i])];
      relative := relative + [RelativeError(c, samples[i])];
    }
    assert errors == Errors(c, samples) && relative == RelativeErrors(c, samples);
    s := Study(Largest(errors), sqrt(Mean(Squares(errors))), Largest(relative), Mean(errors));
  }

  lemma {:induction false} SumBelow(s: seq<real>, m: real)
    requires forall i :: 0 <= i < |s| ==> s[i] <= m
    ensures RSum(s) <= m * |s| as real
  {
    if |s| > 0 {
      SumBelow(s[..|s| - 1], m);
      assert m * |s| as real == m * (|s| - 1) as real + m;
    }
  }

  lemma {:induction false} MeanBelow(s: seq<real>, m: real)
    requires |s| > 0 && forall i :: 0 <= i < |s| ==> s[i] <= m
    ensures Mean(s) <= m
  {
    SumBelow(s, m);
    DivideBelow(RSum(s), m, |s| as real);
  }

  lemma {:induction false} DivideBelow(a: real, m: real, n: real)
    requires n > 0.0 && a <= m * n
    ensures a / n <= m
  {
    assert (m * n) / n == m;
    assert a / n <= (m * n) / n;
  }

  lemma {:induction false} SquareBelow(x: real, m: real)
    requires 0.0 <= x <= m
    ensures x * x <= m * m
  {
    assert m * m - x * x == (m - x) * (m + x);
    assert (m - x) * (m + x) >= 0.0;
  }

  lemma {:induction false} ErrorsNonNegative(c: F32, samples: seq<real>)
    ensures forall i :: 0 <= i < |samples| ==> Errors(c, samples)[i] >= 0.0
  {
    hide ValueOf;
    hide RoundBits;
  }

  /** x packs to a finite normal f32 that is off by at most delta of its magnitude and rounds to a finite bf16. */
  predicate PacksWithin(c: F32, x: real, delta: real) {
    Sample(c.pack(x)) && Distance(ValueOf(c.pack(x)), x) <= delta * AbsValue(x)
  }

  /** What packing and rounding together may cost. */
  function Allowed(delta: real): real {
    (1.0 + delta) / 256.0 + delta
  }

  lemma {:induction false} ErrorsBounded(c: F32, samples: seq<real>, delta: real)
    requires delta >= 0.0 && forall i :: 0 <= i < |samples| ==> PacksWithin(c, samples[i], delta)
    ensures forall i :: 0 <= i < |samples| ==> Errors(c, samples)[i] <= Allowed(delta) * AbsValue(samples[i])
    ensures forall i :: 0 <= i < |samples| ==> RelativeErrors(c, samples)[i] <= Allowed(delta)
  {
    hide Error;
    hide RelativeError;
    hide PacksWithin;
    hide Allowed;
    forall i | 0 <= i < |samples|
      ensures Error(c, samples[i]) <= Allowed(delta) * AbsValue(samples[i]) && RelativeError(c, samples[i]) <= Allowed(delta)
    {
      SampleError(c, samples[i], delta);
    }
  }

  /** The square of a sum is at most the count times the sum of squares. */
  lemma {:induction false} SquareOfSum(s: seq<real>)
    ensures RSum(s) * RSum(s) <= |s| as real * RSum(Squares(s))
  {
    if |s| > 0 {
      var init, x := s[..|s| - 1], s[|s| - 1];
      SquareOfSum(init);
      SquaresSnoc(s);
      SquareNext(RSum(init), RSum(Squares(init)), |init| as real, x);
      if |init| == 0 {
        assert RSum(init) == 0.0 && RSum(Squares(init)) == 0.0;
      } else {
        assert |s| as real == |init| as real + 1.0;
      }
    }
  }

  lemma {:induction false} SquaresSnoc(s: seq<real>)
    requires |s| > 0
    ensures RSum(Squares(s)) == RSum(Squares(s[..|s| - 1])) + s[|s| - 1] * s[|s| - 1]
  {
    var n := |s| - 1;
    forall i | 0 <= i < n
      ensures Squares(s)[..n][i] == Squares(s[..n])[i]
    {
      assert s[..n][i] == s[i];
    }
    assert Squares(s)[..n] == Squares(s[..n]);
  }

  lemma {:induction false} TimesPositive(a: real, b: real)
    requires a > 0.0 && b > 0.0
    ensures a * b > 0.0
  {
  }

  lemma {:induction false} SquareNext(t: real, q: real, n: real, x: real)
    requires n >= 0.0 && t * t <= n * q && (n == 0.0 ==> t == 0.0 && q == 0.0)
    ensures (t + x) * (t + x) <= (n + 1.0) * (q + x * x)
  {
    if n > 0.0 {
      var y := t / n;
      assert t == n * y;
      assert n * (n * (y * y)) <= n * q;
      CancelFactor(n, n * (y * y), q);
      WeightedSquare(n, y, x);
      assert t * x == n * (y * x);
      assert (t + x) * (t + x) == t * t + 2.0 * (t * x) + x * x;
      assert (n + 1.0) * (q + x * x) == n * q + q + n * (x * x) + x * x;
    }
  }

  lemma {:induction false} WeightedSquare(n: real, y: real, x: real)
    requires n > 0.0
    ensures 2.0 * (n * (y * x)) <= n * (y * y) + n * (x * x)
  {
    var d := y - x;
    assert d * d >= 0.0 && d * d == y * y - 2.0 * (y * x) + x * x;
    var e := d * d;
    assert n * e >= 0.0;
    assert n * e == n * (y * y) - 2.0 * (n * (y * x)) + n * (x * x);
  }

  lemma {:induction false} CancelFactor(n: real, a: real, b: real)
    requires n > 0.0 && n * a <= n * b
    ensures a <= b
  {
    assert (n * a) / n == a;
    DivideBelow(n * a, b, n);
  }

  /** The square of the mean is at most the mean of the squares. */
  lemma {:induction false} MeanSquared(s: seq<real>)
    requires |s| > 0
    ensures Mean(s) * Mean(s) <= Mean(Squares(s))
  {
    SquareOfSum(s);
    QuotientSquared(RSum(s), RSum(Squares(s)), |s| as real);
  }

  lemma {:induction false} QuotientSquared(t: real, q: real, n: real)
    requires n > 0.0 && t * t <= n * q
    ensures (t / n) * (t / n) <= q / n
  {
    var y, z := t / n, q / n;
    assert t == n * y && q == n * z;
    assert t * t == n * (n * (y * y));
    CancelFactor(n, n * (y * y), n * z);
    CancelFactor(n, y * y, z);
  }

  /** A square root of x. */
  ghost predicate Root(r: real, x: real) {
    r >= 0.0 && r * r == x
  }

  lemma {:induction false} RootBetween(low: real, r: real, x: real, high: real)
    requires Root(r, x) && low * low <= x <= high * high && high >= 0.0
    ensures low <= r <= high
  {
    if low > r {
      assert low * low > r * r by { Increasing(r, low); }
    }
    if r > high {
      assert r * r > high * high by { Increasing(high, r); }
    }
  }

  lemma {:induction false} Increasing(a: real, b: real)
    requires 0.0 <= a < b
    ensures a * a < b * b
  {
    var u, v := b - a, b + a;
    assert b * b - a * a == u * v;
    TimesPositive(u, v);
  }

  /** Over every non-empty list of samples the mean error is at most the root mean square, and that at most the maximum.
      If all samples pack into f32 within delta of their magnitude, no error exceeds (1 + delta) / 256 + delta of the
      magnitude, which is 2^-8 for samples that f32 holds exactly. */
  lemma {:induction false} StudyIsBounded(c: F32, sqrt: real -> real, samples: seq<real>, delta: real)
    requires |samples| > 0 && delta >= 0.0 && Root(sqrt(Mean(Squares(Errors(c, samples)))), Mean(Squares(Errors(c, samples))))
    ensures var s := StudyOf(c, sqrt, samples);
            s.mean <= s.rms <= s.maxError
    ensures (forall i :: 0 <= i < |samples| ==> PacksWithin(c, samples[i], delta)) ==>
              && StudyOf(c, sqrt, samples).maxRelative <= Allowed(delta)
              && forall i :: 0 <= i < |samples| ==> Errors(c, samples)[i] <= Allowed(delta) * AbsValue(samples[i])
  {
    hide *;
    var errors := Errors(c, samples);
    ErrorsNonNegative(c, samples);
    SquaresBelow(errors, Largest(errors));
    MeanBelow(Squares(errors), Largest(errors) * Largest(errors));
    MeanSquared(errors);
    assert Largest(errors) >= errors[0] >= 0.0;
    RootBetween(Mean(errors), sqrt(Mean(Squares(errors))), Mean(Squares(errors)), Largest(errors));
    StudyIs(c, sqrt, samples);
    if forall i :: 0 <= i < |samples| ==> PacksWithin(c, samples[i], delta) {
      ErrorsBounded(c, samples, delta);
    }
  }

  lemma {:induction false} StudyIs(c: F32, sqrt: real -> real, samples: seq<real>)
    requires |samples| > 0
    ensures StudyOf(c, sqrt, samples)
         == Study(Largest(Errors(c, samples)), sqrt(Mean(Squares(Errors(c, samples)))), Largest(RelativeErrors(c, samples)),
                  Mean(Errors(c, samples)))
  {
  }

  lemma {:induction false} SquaresBelow(s: seq<real>, m: real)
    requires forall i :: 0 <= i < |s| ==> 0.0 <= s[i] <= m
    ensures forall i :: 0 <= i < |s| ==> Squares(s)[i] <= m * m
  {
    forall i | 0 <= i < |s|
      ensures s[i] * s[i] <= m * m
    {
      SquareBelow(s[i], m);
    }
  }

  lemma {:induction false} MinNormal()
    ensures Normal(BINADE) && BINADE % GRID == 0
  {
  }

  /** The triangle through the packed value. */
  lemma {:induction false} ErrorThrough(r: real, v: real, x: real, delta: real)
    requires delta >= 0.0 && 256.0 * Distance(r, v) <= AbsValue(v) && Distance(v, x) <= delta * AbsValue(x)
    ensures Distance(r, x) <= Allowed(delta) * AbsValue(x)
  {
    var a, d := AbsValue(x), delta * AbsValue(x);
    assert AbsValue(v) <= a + d;
    assert Distance(r, x) <= (a + d) / 256.0 + d;
    assert Allowed(delta) * a == (a + d) / 256.0 + d;
  }

  lemma {:induction false} SampleError(c: F32, x: real, delta: real)
    requires delta >= 0.0 && PacksWithin(c, x, delta)
    ensures Error(c, x) <= Allowed(delta) * AbsValue(x) && RelativeError(c, x) <= Allowed(delta)
  {
    hide RoundBits;
    hide ValueOf;
    hide Allowed;
    hide Distance;
    hide AbsValue;
    hide Normal;
    MinNormal();
    var bits := c.pack(x);
    RoundingIsNearest(bits, BINADE);
    ErrorThrough(ValueOf(RoundBits(bits)), ValueOf(bits), x, delta);
    RelativeFrom(c, x, delta);
  }

  lemma {:induction false} RelativeFrom(c: F32, x: real, delta: real)
    requires delta >= 0.0 && Error(c, x) <= Allowed(delta) * AbsValue(x)
    ensures RelativeError(c, x) <= Allowed(delta)
  {
    hide Error;
    hide Allowed;
    var a := AbsValue(x);
    assert a >= 0.0;
    var d := if a >= 0.000001 then a else 0.000001;
    AllowedGrows(delta, a, d);
    assert Error(c, x) <= Allowed(delta) * d;
    hide AbsValue;
    DivideBelow(Error(c, x), Allowed(delta), d);
  }

  lemma {:induction false} AllowedGrows(delta: real, a: real, d: real)
    requires delta >= 0.0 && 0.0 <= a <= d
    ensures Allowed(delta) * a <= Allowed(delta) * d
  {
    assert Allowed(delta) * d - Allowed(delta) * a == Allowed(delta) * (d - a);
  }
}
