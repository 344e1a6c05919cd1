module Decimal {
  // Decimal numerals inside tensor names.

  import opened Common

  predicate IsDigit(c: char) {
    '0' <= c <= '9'
  }

  /** `str(n)` for a natural number. */
  function Digits(n: nat): (s: string)
    ensures |s| > 0 && forall i :: 0 <= i < |s| ==> IsDigit(s[i])
  {
    var d := ('0' as int + n % 10) as char;
    if n < 10 then [d] else Digits(n / 10) + [d]
  }

  /** `int(s)` on strings of ASCII digits; None stands for ValueError. */
  function ParseInt(s: string): (r: Option<nat>) {
    if |s| == 0 || !IsDigit(s[|s| - 1]) then None
    else
      var d := s[|s| - 1] as int - '0' as int;
      if |s| == 1 then Some(d)
      else match ParseInt(s[..|s| - 1])
        case None => None
        case Some(m) => Some(10 * m + d)
  }

  lemma {:induction false} ParseInvertsDigits(n: nat)
    ensures ParseInt(Digits(n)) == Some(n)
  {
    if n >= 10 {
      ParseInvertsDigits(n / 10);
      var s := Digits(n);
      assert s[..|s| - 1] == Digits(n / 10);
    }
  }

  lemma {:induction false} DigitsInjective(m: nat, n: nat)
    requires Digits(m) == Digits(n)
    ensures m == n
  {
    ParseInvertsDigits(m);
    ParseInvertsDigits(n);
  }

  lemma {:induction false} DigitsMonotone(m: nat, n: nat)
    requires m <= n
    ensures |Digits(m)| <= |Digits(n)|
  {
    if m >= 10 {
      DigitsMonotone(m / 10, n / 10);
    }
  }

  /** Position of the first '.', or -1: `str.find(".")`. */
  function FindDot(s: string): (i: int)
    ensures -1 <= i < |s|
    ensures i >= 0 ==> s[i] == '.' && forall j :: 0 <= j < i ==> s[j] != '.'
    ensures i == -1 ==> forall j :: 0 <= j < |s| ==> s[j] != '.'
  {
    FindDotFrom(s, 0)
  }

  function FindDotFrom(s: string, k: nat): (i: int)
    requires k <= |s|
    requires forall j :: 0 <= j < k ==> s[j] != '.'
    ensures -1 <= i < |s|
    ensures i >= 0 ==> s[i] == '.' && forall j :: 0 <= j < i ==> s[j] != '.'
    ensures i == -1 ==> forall j :: 0 <= j < |s| ==> s[j] != '.'
    decreases |s| - k
  {
    if k == |s| then -1
    else if s[k] == '.' then k
    else FindDotFrom(s, k + 1)
  }
}
