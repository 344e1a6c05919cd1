/** Weighted sums over sequences, and stable insertion sort: both depend only on the elements, not their order. */
module Tally {

  /** The sum of f over s, as an accumulator loop computes it. */
  function Total<T>(s: seq<T>, f: T -> int): int {
    if |s| == 0 then 0 else Total(s[..|s| - 1], f) + f(s[|s| - 1])
  }

  lemma {:induction false} TotalSnoc<T>(s: seq<T>, x: T, f: T -> int)
    ensures Total(s + [x], f) == Total(s, f) + f(x)
  {
    assert (s + [x])[..|s|] == s;
  }

  lemma {:induction false} TotalNone<T>(f: T -> int)
    ensures Total([], f) == 0
  {
  }

  lemma {:induction false} TotalTake<T>(s: seq<T>, f: T -> int, k: nat)
    requires k < |s|
    ensures Total(s[..k + 1], f) == Total(s[..k], f) + f(s[k])
  {
    assert s[..k + 1][..k] == s[..k];
  }

  lemma {:induction false} TotalConcat<T>(a: seq<T>, b: seq<T>, f: T -> int)
    ensures Total(a + b, f) == Total(a, f) + Total(b, f)
  {
    if |b| == 0 {
      assert a + b == a;
    } else {
      assert (a + b)[..|a + b| - 1] == a + b[..|b| - 1];
      TotalConcat(a, b[..|b| - 1], f);
    }
  }

  /** Two weights that agree on the elements have the same total. */
  lemma {:induction false} TotalSame<T>(s: seq<T>, f: T -> int, g: T -> int)
    requires forall i :: 0 <= i < |s| ==> f(s[i]) == g(s[i])
    ensures Total(s, f) == Total(s, g)
  {
    if |s| > 0 {
      TotalSame(s[..|s| - 1], f, g);
    }
  }

  lemma {:induction false} TotalMonotone<T>(s: seq<T>, f: T -> int, g: T -> int)
    requires forall i :: 0 <= i < |s| ==> f(s[i]) <= g(s[i])
    ensures Total(s, f) <= Total(s, g)
  {
    if |s| > 0 {
      TotalMonotone(s[..|s| - 1], f, g);
    }
  }

  lemma {:induction false} TotalZero<T>(s: seq<T>, f: T -> int)
    requires forall i :: 0 <= i < |s| ==> f(s[i]) == 0
    ensures Total(s, f) == 0
  {
    if |s| > 0 {
      TotalZero(s[..|s| - 1], f);
    }
  }

  /** A sum of weights is the sum of the sums. */
  lemma {:induction false} TotalAdd<T>(s: seq<T>, f: T -> int, g: T -> int, h: T -> int)
    requires forall i :: 0 <= i < |s| ==> h(s[i]) == f(s[i]) + g(s[i])
    ensures Total(s, h) == Total(s, f) + Total(s, g)
  {
    if |s| > 0 {
      TotalAdd(s[..|s| - 1], f, g, h);
    }
  }

  lemma {:induction false} CountIsLength<T>(s: seq<T>, f: T -> int, c: int)
    requires forall i :: 0 <= i < |s| ==> f(s[i]) == c
    ensures Total(s, f) == c * |s|
  {
    if |s| > 0 {
      CountIsLength(s[..|s| - 1], f, c);
    }
  }

  // ---------------------------------------------------------- dictionaries

  function KeyIs<T, K(==)>(key: T -> K, k: K): T -> int {
    (x: T) => if key(x) == k then 1 else 0
  }

  /** A `defaultdict(int)` that was incremented once for the key of every element. */
  ghost predicate CountsBy<T, K(!new)>(m: map<K, int>, s: seq<T>, key: T -> K) {
    forall k :: if k in m then m[k] > 0 && m[k] == Total(s, KeyIs(key, k)) else Total(s, KeyIs(key, k)) == 0
  }

  function CountUp<K>(m: map<K, int>, k: K): map<K, int> {
    m[k := (if k in m then m[k] else 0) + 1]
  }

  lemma {:induction false} CountsSnoc<T, K(!new)>(m: map<K, int>, s: seq<T>, x: T, key: T -> K)
    requires CountsBy(m, s, key)
    ensures CountsBy(CountUp(m, key(x)), s + [x], key)
  {
    forall k
      ensures Total(s + [x], KeyIs(key, k)) == Total(s, KeyIs(key, k)) + if key(x) == k then 1 else 0
    {
      TotalSnoc(s, x, KeyIs(key, k));
    }
  }

  // ---------------------------------------------------------- permutations

  /** Taking element i out of s. */
  function Without<T>(s: seq<T>, i: nat): (r: seq<T>)
    requires i < |s|
    ensures |r| == |s| - 1
  {
    s[..i] + s[i + 1..]
  }

  lemma {:induction false} WithoutMultiset<T>(s: seq<T>, i: nat)
    requires i < |s|
    ensures multiset(Without(s, i)) + multiset{s[i]} == multiset(s)
  {
    assert s == s[..i] + [s[i]] + s[i + 1..];
  }

  lemma {:induction false} TotalWithout<T>(s: seq<T>, i: nat, f: T -> int)
    requires i < |s|
    ensures Total(Without(s, i), f) + f(s[i]) == Total(s, f)
  {
    assert s == s[..i] + ([s[i]] + s[i + 1..]);
    TotalConcat(s[..i], [s[i]] + s[i + 1..], f);
    TotalConcat([s[i]], s[i + 1..], f);
    TotalConcat(s[..i], s[i + 1..], f);
    assert [s[i]][..0] == [];
  }

  /** A total does not depend on the order of the elements. */
  lemma {:induction false} TotalPermuted<T>(a: seq<T>, b: seq<T>, f: T -> int)
    requires multiset(a) == multiset(b)
    ensures Total(a, f) == Total(b, f)
    decreases |a|
  {
    if |a| == 0 {
      NoElements(b, a);
    } else {
      var x := a[|a| - 1];
      assert x in multiset(b);
      var i :| 0 <= i < |b| && b[i] == x;
      LastMultiset(a);
      WithoutMultiset(b, i);
      TotalWithout(b, i, f);
      Cancel(multiset(a[..|a| - 1]), multiset(Without(b, i)), x);
      TotalPermuted(a[..|a| - 1], Without(b, i), f);
    }
  }

  lemma {:induction false} LastMultiset<T>(s: seq<T>)
    requires |s| > 0
    ensures multiset(s[..|s| - 1]) + multiset{s[|s| - 1]} == multiset(s)
  {
    assert s == s[..|s| - 1] + [s[|s| - 1]];
  }

  lemma {:induction false} Cancel<T>(m: multiset<T>, n: multiset<T>, x: T)
    requires m + multiset{x} == n + multiset{x}
    ensures m == n
  {
    assert m == m + multiset{x} - multiset{x};
    assert n == n + multiset{x} - multiset{x};
  }

  lemma {:induction false} NoElements<T>(b: seq<T>, a: seq<T>)
    requires |a| == 0 && multiset(a) == multiset(b)
    ensures |b| == 0
  {
    assert |multiset(a)| == |a| && |multiset(b)| == |b|;
  }

  // ----------------------------------------------------------------- sorting

  /** Insert x behind every element that does not have to come after it. */
  function Insert<T>(s: seq<T>, x: T, leq: (T, T) -> bool): (r: seq<T>)
    ensures |r| == |s| + 1
  {
    if |s| == 0 || leq(s[|s| - 1], x) then s + [x]
    else Insert(s[..|s| - 1], x, leq) + [s[|s| - 1]]
  }

  /** `sorted(s, key=...)`: stable. */
  function Sort<T>(s: seq<T>, leq: (T, T) -> bool): (r: seq<T>)
    ensures |r| == |s|
  {
    if |s| == 0 then [] else Insert(Sort(s[..|s| - 1], leq), s[|s| - 1], leq)
  }

  ghost predicate Ordered<T>(s: seq<T>, leq: (T, T) -> bool) {
    forall i, j :: 0 <= i < j < |s| ==> leq(s[i], s[j])
  }

  ghost predicate TotalOrder<T(!new)>(leq: (T, T) -> bool) {
    && (forall x, y :: leq(x, y) || leq(y, x))
    && (forall x, y, z :: leq(x, y) && leq(y, z) ==> leq(x, z))
  }

  lemma {:induction false} InsertPermutes<T>(s: seq<T>, x: T, leq: (T, T) -> bool)
    ensures multiset(Insert(s, x, leq)) == multiset(s) + multiset{x}
  {
    if !(|s| == 0 || leq(s[|s| - 1], x)) {
      InsertPermutes(s[..|s| - 1], x, leq);
      LastMultiset(s);
    }
  }

  lemma {:induction false} SortPermutes<T>(s: seq<T>, leq: (T, T) -> bool)
    ensures multiset(Sort(s, leq)) == multiset(s)
  {
    if |s| > 0 {
      SortPermutes(s[..|s| - 1], leq);
      InsertPermutes(Sort(s[..|s| - 1], leq), s[|s| - 1], leq);
      LastMultiset(s);
    }
  }

  lemma {:induction false} InsertOrders<T(!new)>(s: seq<T>, x: T, leq: (T, T) -> bool)
    requires TotalOrder(leq) && Ordered(s, leq)
    ensures Ordered(Insert(s, x, leq), leq)
  {
    var n := |s| - 1;
    if |s| == 0 {
    } else if leq(s[n], x) {
      forall i | 0 <= i < |s|
        ensures leq(s[i], x)
      {
        assert i == n || leq(s[i], s[n]);
      }
    } else {
      InsertOrders(s[..n], x, leq);
      InsertPermutes(s[..n], x, leq);
      FromInsertion(Insert(s[..n], x, leq), s[..n], x);
    }
  }

  lemma {:induction false} FromInsertion<T>(r: seq<T>, s: seq<T>, x: T)
    requires multiset(r) == multiset(s) + multiset{x}
    ensures forall i :: 0 <= i < |r| ==> r[i] == x || r[i] in s
  {
    forall i | 0 <= i < |r|
      ensures r[i] == x || r[i] in s
    {
      assert r[i] in multiset(r);
      assert r[i] in multiset(s) || r[i] == x;
    }
  }

  lemma {:induction false} SortOrders<T(!new)>(s: seq<T>, leq: (T, T) -> bool)
    requires TotalOrder(leq)
    ensures Ordered(Sort(s, leq), leq)
  {
    if |s| > 0 {
      SortOrders(s[..|s| - 1], leq);
      InsertOrders(Sort(s[..|s| - 1], leq), s[|s| - 1], leq);
    }
  }

  /** Elements with distinct keys have only one ordered arrangement. */
  lemma {:induction false} OrderedUnique<T(!new)>(a: seq<T>, b: seq<T>, leq: (T, T) -> bool)
    requires multiset(a) == multiset(b) && Ordered(a, leq) && Ordered(b, leq) && KeysDistinct(a, leq)
    ensures a == b
    decreases |a|
  {
    if |a| == 0 {
      NoElements(b, a);
    } else {
      SameSize(a, b);
      SameLast(a, b, leq);
      var n := |a| - 1;
      LastMultiset(a);
      LastMultiset(b);
      Cancel(multiset(a[..n]), multiset(b[..n]), a[n]);
      OrderedUnique(a[..n], b[..n], leq);
      assert a == a[..n] + [a[n]] && b == b[..n] + [b[n]];
    }
  }

  /** Elements that are ordered both ways are the same element. */
  ghost predicate KeysDistinct<T>(s: seq<T>, leq: (T, T) -> bool) {
    forall i, j :: 0 <= i < |s| && 0 <= j < |s| && leq(s[i], s[j]) && leq(s[j], s[i]) ==> s[i] == s[j]
  }

  lemma {:induction false} SameLast<T(!new)>(a: seq<T>, b: seq<T>, leq: (T, T) -> bool)
    requires |a| == |b| > 0 && multiset(a) == multiset(b)
    requires Ordered(a, leq) && Ordered(b, leq) && KeysDistinct(a, leq)
    ensures a[|a| - 1] == b[|b| - 1]
  {
    var n := |a| - 1;
    assert b[n] in multiset(a) && a[n] in multiset(b);
    var i :| 0 <= i < |a| && a[i] == b[n];
    var j :| 0 <= j < |b| && b[j] == a[n];
    if i < n && j < n {
      assert leq(a[i], a[n]) && leq(b[j], b[n]);
    }
  }

  lemma {:induction false} SameSize<T>(a: seq<T>, b: seq<T>)
    requires multiset(a) == multiset(b)
    ensures |a| == |b|
  {
    assert |multiset(a)| == |a| && |multiset(b)| == |b|;
  }

  // ------------------------------------------------------------------- ranks

  function UpTo<T>(leq: (T, T) -> bool, x: T): T -> int {
    (y: T) => if leq(y, x) then 1 else 0
  }

  /** Insertion into an ordered list goes behind everything that may come before x. */
  lemma {:induction false} InsertAt<T(!new)>(s: seq<T>, x: T, leq: (T, T) -> bool)
    requires TotalOrder(leq) && Ordered(s, leq)
    ensures var p := Total(s, UpTo(leq, x));
            && 0 <= p <= |s| && Insert(s, x, leq) == s[..p] + [x] + s[p..]
            && forall k :: 0 <= k < |s| ==> (leq(s[k], x) <==> k < p)
  {
    var n := |s| - 1;
    if |s| == 0 {
    } else if leq(s[n], x) {
      forall k | 0 <= k < |s|
        ensures leq(s[k], x)
      {
        assert k == n || leq(s[k], s[n]);
      }
      CountIsLength(s, UpTo(leq, x), 1);
    } else {
      InsertAt(s[..n], x, leq);
      var p := Total(s[..n], UpTo(leq, x));
      assert Total(s, UpTo(leq, x)) == p;
      assert s[..n][..p] == s[..p] && s[..n][p..] + [s[n]] == s[p..];
    }
  }

  lemma {:induction false} NewAt<T(!new)>(s: seq<T>, x: T, leq: (T, T) -> bool)
    requires TotalOrder(leq) && Ordered(s, leq)
    ensures 0 <= Total(s, UpTo(leq, x)) <= |s| && Insert(s, x, leq)[Total(s, UpTo(leq, x))] == x
  {
    InsertAt(s, x, leq);
    hide *;
  }

  lemma {:induction false} OldAt<T(!new)>(s: seq<T>, x: T, r: int, leq: (T, T) -> bool)
    requires TotalOrder(leq) && Ordered(s, leq) && 0 <= r < |s|
    ensures Insert(s, x, leq)[if leq(s[r], x) then r else r + 1] == s[r]
  {
    InsertAt(s, x, leq);
    hide *;
  }
}
