/** Shared vocabulary: failure values, sums over sequences and row-major index arithmetic. */
module Common {

  datatype Option<+T> = None | Some(value: T) {
    function GetOr(default: T): T {
      match this
      case Some(v) => v
      case None => default
    }
  }

  datatype Result<+T> = Ok(value: T) | Err(error: string)

  // ------------------------------------------------------------------ sums

  /** Left-to-right sum of reals, as a Python accumulator computes it. */
  function RSum(s: seq<real>): real {
    if |s| == 0 then 0.0 else RSum(s[..|s| - 1]) + s[|s| - 1]
  }

  lemma {:induction false} RSumSnoc(s: seq<real>, x: real)
    ensures RSum(s + [x]) == RSum(s) + x
  {
    assert (s + [x])[..|s|] == s;
  }

  lemma {:induction false} RSumPositive(s: seq<real>)
    requires |s| > 0
    requires forall i :: 0 <= i < |s| ==> s[i] > 0.0
    ensures RSum(s) > 0.0
  {
    if |s| > 1 {
      RSumPositive(s[..|s| - 1]);
    } else {
      assert RSum(s[..0]) == 0.0;
    }
  }

  // ------------------------------------------------------ index arithmetic

  /** Row-major positions stay in range and split back into row and column. */
  lemma {:induction false} FlatIndex(r: nat, c: nat, rows: nat, cols: nat)
    requires r < rows && c < cols
    ensures 0 <= r * cols + c < rows * cols
    ensures (r * cols + c) / cols == r && (r * cols + c) % cols == c
  {
    calc {
      r * cols + c;
    <
      r * cols + cols;
    ==
      (r + 1) * cols;
    <= { MulMonotone(r + 1, rows, cols); }
      rows * cols;
    }
    DivModUnique(r * cols + c, cols, r, c);
  }

  lemma {:induction false} FlatSplit(k: nat, rows: nat, cols: nat)
    requires k < rows * cols
    ensures rows > 0 && cols > 0
    ensures k / cols < rows && k % cols < cols && (k / cols) * cols + k % cols == k
  {
    var q := k / cols;
    assert k == q * cols + k % cols;
    if q >= rows {
      MulMonotone(rows, q, cols);
    }
  }

  /** A whole row fits: row r ends where row r + 1 begins. */
  lemma {:induction false} FlatRowBound(r: nat, rows: nat, cols: nat)
    requires r < rows
    ensures r * cols + cols == (r + 1) * cols <= rows * cols
  {
    MulMonotone(r + 1, rows, cols);
  }

  lemma {:induction false} MulMonotone(a: int, b: int, c: nat)
    requires a <= b
    ensures a * c <= b * c
  {
  }

  lemma {:induction false} DivModUnique(n: int, d: int, q: int, r: int)
    requires d > 0 && 0 <= r < d && n == q * d + r
    ensures n / d == q && n % d == r
  {
    var p := n / d;
    assert n == d * p + n % d;
    assert d * p == p * d;
    if p < q {
      MulMonotone(p + 1, q, d);
    } else if p > q {
      MulMonotone(q + 1, p, d);
    }
  }

  lemma {:induction false} MulAssoc(a: int, b: int, c: int)
    ensures (a * b) * c == a * (b * c)
  {
  }

  // ---------------------------------------------------------------- prefixes

  lemma {:induction false} TakeNext<T>(s: seq<T>, k: nat)
    requires k < |s|
    ensures s[..k + 1] == s[..k] + [s[k]] && s[..k + 1][..k] == s[..k]
  {
  }

  lemma {:induction false} TakeAll<T>(s: seq<T>)
    ensures s[..|s|] == s
  {
  }
}
