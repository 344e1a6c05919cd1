module Safetensors {
  // The safetensors header scan: per-tensor checks, then an overlap check of neighbours only.

  import opened Common
  import opened Tally

  /** A tensor entry of the JSON header; None stands for a missing or malformed field. */
  datatype Entry = Entry(name: string, dtype: Option<string>, shape: Option<seq<int>>, offsets: Option<(int, int)>)

  datatype TensorInfo = TensorInfo(name: string, dtype: string, shape: seq<int>, begin: int, end: int, elementSize: nat, expected: int) {
    function Bytes(): int {
      end - begin
    }

    predicate Covers(x: int) {
      begin <= x < end
    }
  }

  datatype Issue = MissingDtype(at: nat) | MissingShape(at: nat) | MissingOffsets(at: nat) | Reversed(at: nat)
    | SizeMismatch(at: nat) | Overlap(at: nat)

  function ElementSize(dtype: string): nat {
    if dtype == "F64" || dtype == "I64" then 8
    else if dtype == "F32" || dtype == "I32" || dtype == "U32" then 4
    else if dtype == "BF16" || dtype == "F16" || dtype == "I16" || dtype == "U16" then 2
    else if dtype == "I8" || dtype == "U8" || dtype == "BOOL" then 1
    else 0
  }

  function ShapeProduct(s: seq<int>): int {
    if |s| == 0 then 1 else ShapeProduct(s[..|s| - 1]) * s[|s| - 1]
  }

  function Add(acc: seq<Issue>, bad: bool, issue: Issue): (r: seq<Issue>)
    ensures |r| == |acc| + if bad then 1 else 0
  {
    if bad then acc + [issue] else acc
  }

  /** The record kept for an entry, with the scan's substitutes for missing fields. */
  function InfoOf(e: Entry): TensorInfo {
    var dtype, shape := e.dtype.GetOr("?"), e.shape.GetOr([]);
    var (begin, end) := e.offsets.GetOr((0, 0));
    var size := ElementSize(dtype);
    TensorInfo(e.name, dtype, shape, begin, end, size, if size != 0 then ShapeProduct(shape) * size else 0)
  }

  function EntryIssues(acc: seq<Issue>, at: nat, e: Entry): seq<Issue> {
    var t := InfoOf(e);
    var e1 := Add(acc, e.dtype.None?, MissingDtype(at));
    var e2 := Add(e1, e.shape.None?, MissingShape(at));
    var e3 := Add(e2, e.offsets.None?, MissingOffsets(at));
    var e4 := Add(e3, t.begin > t.end, Reversed(at));
    Add(e4, t.elementSize != 0 && t.shape != [] && t.expected != t.Bytes(), SizeMismatch(at))
  }

  datatype Scanned = Scanned(tensors: seq<TensorInfo>, errors: seq<Issue>)

  /** The first n entries; an end beyond the data region is fatal. */
  function ScanTo(es: seq<Entry>, dataSize: int, n: nat): Result<Scanned>
    requires n <= |es|
  {
    if n == 0 then Ok(Scanned([], []))
    else
      match ScanTo(es, dataSize, n - 1)
      case Err(m) => Err(m)
      case Ok(s) =>
        var t := InfoOf(es[n - 1]);
        if t.end > dataSize then Err("data_offsets exceed the data region")
        else Ok(Scanned(s.tensors + [t], EntryIssues(s.errors, n - 1, es[n - 1])))
  }

  function BeginOrder(): (TensorInfo, TensorInfo) -> bool {
    (a: TensorInfo, b: TensorInfo) => a.begin <= b.begin
  }

  /** Neighbours of the sorted list, up to the pair (n - 1, n). */
  function OverlapIssues(acc: seq<Issue>, sorted: seq<TensorInfo>, n: nat): seq<Issue>
    requires n < |sorted| || n == 0
  {
    if n == 0 then acc
    else Add(OverlapIssues(acc, sorted, n - 1), sorted[n - 1].end > sorted[n].begin, Overlap(n - 1))
  }

  function LastPair(sorted: seq<TensorInfo>): nat {
    if |sorted| == 0 then 0 else |sorted| - 1
  }

  /** `scan_safetensors` on the entries of a header. */
  function Scan(es: seq<Entry>, dataSize: int): Result<Scanned> {
    match ScanTo(es, dataSize, |es|)
    case Err(m) => Err(m)
    case Ok(s) =>
      var sorted := Sort(s.tensors, BeginOrder());
      Ok(Scanned(s.tensors, OverlapIssues(s.errors, sorted, LastPair(sorted))))
  }

  method ScanSafetensors(es: seq<Entry>, dataSize: int) returns (r: Result<Scanned>)
    ensures r == Scan(es, dataSize)
  {
    var tensors: seq<TensorInfo>, errors: seq<Issue> := [], [];
    hide EntryIssues;
    hide InfoOf;
    for i := 0 to |es|
      invariant ScanTo(es, dataSize, i) == Ok(Scanned(tensors, errors))
    {
      var t := InfoOf(es[i]);
      if t.end > dataSize {
        FatalStays(es, dataSize, i + 1, |es|);
        return Err("data_offsets exceed the data region");
      }
      errors := EntryIssues(errors, i, es[i]);
      tensors := tensors + [t];
    }
    var sorted := Sort(tensors, BeginOrder());
    ghost var before := errors;
    for i := 0 to LastPair(sorted)
      invariant errors == OverlapIssues(before, sorted, i)
    {
      if sorted[i].end > sorted[i + 1].begin {
        errors := errors + [Overlap(i)];
      }
    }
    r := Ok(Scanned(tensors, errors));
  }

  lemma {:induction false} FatalStays(es: seq<Entry>, dataSize: int, i: nat, n: nat)
    requires i <= n <= |es| && ScanTo(es, dataSize, i).Err?
    ensures ScanTo(es, dataSize, n) == ScanTo(es, dataSize, i)
  {
    if i < n {
      FatalStays(es, dataSize, i, n - 1);
    }
  }

  // --------------------------------------------------------------- theorems

  /** No byte of the data region belongs to both tensors. */
  ghost predicate Disjoint(a: TensorInfo, b: TensorInfo) {
    forall x: int :: !(a.Covers(x) && b.Covers(x))
  }

  ghost predicate AllDisjoint(ts: seq<TensorInfo>) {
    forall i, j :: 0 <= i < j < |ts| ==> Disjoint(ts[i], ts[j])
  }

  ghost predicate Forward(ts: seq<TensorInfo>) {
    forall i :: 0 <= i < |ts| ==> ts[i].begin <= ts[i].end
  }

  ghost predicate Chained(sorted: seq<TensorInfo>, n: nat)
    requires n < |sorted| || n == 0
  {
    forall i :: 0 <= i < n ==> sorted[i].end <= sorted[i + 1].begin
  }

  lemma {:induction false} OverlapsIff(acc: seq<Issue>, sorted: seq<TensorInfo>, n: nat)
    requires n < |sorted| || n == 0
    ensures |OverlapIssues(acc, sorted, n)| >= |acc|
    ensures Chained(sorted, n) <==> OverlapIssues(acc, sorted, n) == acc
    ensures !Chained(sorted, n) ==> |OverlapIssues(acc, sorted, n)| > |acc|
  {
    if n > 0 {
      OverlapsIff(acc, sorted, n - 1);
    }
  }

  lemma {:induction false} ScannedFacts(es: seq<Entry>, dataSize: int, n: nat)
    requires n <= |es| && ScanTo(es, dataSize, n).Ok?
    ensures var s := ScanTo(es, dataSize, n).value;
            && |s.tensors| == n && (forall i :: 0 <= i < n ==> s.tensors[i] == InfoOf(es[i]) && s.tensors[i].end <= dataSize)
            && (s.errors == [] ==> Forward(s.tensors))
  {
    hide InfoOf;
    hide EntryIssues;
    if n > 0 {
      ScannedFacts(es, dataSize, n - 1);
      SilentEntry(ScanTo(es, dataSize, n - 1).value.errors, n - 1, es[n - 1]);
    }
  }

  /** An entry that adds no issue does not end before it begins, and finds none. */
  lemma {:induction false} SilentEntry(acc: seq<Issue>, at: nat, e: Entry)
    ensures EntryIssues(acc, at, e) == [] ==> acc == [] && InfoOf(e).begin <= InfoOf(e).end
  {
    hide InfoOf;
  }

  /** Tensor p comes before tensor q in the stable order by begin offset. */
  predicate Before(ts: seq<TensorInfo>, p: nat, q: nat)
    requires p < |ts| && q < |ts|
  {
    ts[p].begin < ts[q].begin || (ts[p].begin == ts[q].begin && p < q)
  }

  /** Whatever comes before ends before. */
  ghost predicate NoClash(ts: seq<TensorInfo>) {
    forall p, q :: 0 <= p < |ts| && 0 <= q < |ts| && Before(ts, p, q) ==> ts[p].end <= ts[q].begin
  }

  /** Whether x, listed after a, goes with it. */
  predicate Compatible(a: TensorInfo, x: TensorInfo) {
    if a.begin <= x.begin then a.end <= x.begin else x.end <= a.begin
  }

  ghost predicate FitsAfter(ts: seq<TensorInfo>, x: TensorInfo) {
    forall p :: 0 <= p < |ts| ==> Compatible(ts[p], x)
  }

  lemma {:induction false} FitsSnoc(ts: seq<TensorInfo>, l: TensorInfo, x: TensorInfo)
    ensures FitsAfter(ts + [l], x) <==> FitsAfter(ts, x) && Compatible(l, x)
  {
    var all := ts + [l];
    assert all[|ts|] == l && forall p :: 0 <= p < |ts| ==> all[p] == ts[p];
  }

  lemma {:induction false} ClashSnoc(ts: seq<TensorInfo>, x: TensorInfo)
    ensures NoClash(ts + [x]) <==> NoClash(ts) && FitsAfter(ts, x)
  {
    var all, n := ts + [x], |ts|;
    assert all[n] == x && forall p :: 0 <= p < n ==> all[p] == ts[p];
    if NoClash(all) {
      forall p, q | 0 <= p < n && 0 <= q < n && Before(ts, p, q)
        ensures ts[p].end <= ts[q].begin
      {
        assert Before(all, p, q);
      }
      forall p | 0 <= p < n
        ensures Compatible(ts[p], x)
      {
        assert Before(all, p, n) || Before(all, n, p);
      }
    }
    if NoClash(ts) && FitsAfter(ts, x) {
      forall p, q | 0 <= p <= n && 0 <= q <= n && Before(all, p, q)
        ensures all[p].end <= all[q].begin
      {
        if p < n && q < n {
          assert Before(ts, p, q);
        } else {
          assert Compatible(ts[if p < n then p else q], x);
        }
      }
    }
  }

  lemma {:induction false} FitsInsert(ts: seq<TensorInfo>, y: TensorInfo, x: TensorInfo)
    ensures FitsAfter(Insert(ts, y, BeginOrder()), x) <==> FitsAfter(ts, x) && Compatible(y, x)
  {
    hide Compatible;
    var n := |ts| - 1;
    if n >= 0 && !(ts[n].begin <= y.begin) {
      FitsInsert(ts[..n], y, x);
      FitsSnoc(Insert(ts[..n], y, BeginOrder()), ts[n], x);
      FitsSnoc(ts[..n], ts[n], x);
      assert ts == ts[..n] + [ts[n]];
    } else {
      FitsSnoc(ts, y, x);
    }
  }

  lemma {:induction false} FitsSort(ts: seq<TensorInfo>, x: TensorInfo)
    ensures FitsAfter(Sort(ts, BeginOrder()), x) <==> FitsAfter(ts, x)
  {
    var n := |ts| - 1;
    if n >= 0 {
      FitsSort(ts[..n], x);
      FitsInsert(Sort(ts[..n], BeginOrder()), ts[n], x);
      FitsSnoc(ts[..n], ts[n], x);
      assert ts == ts[..n] + [ts[n]];
    }
  }

  /** Inserting in order clashes with no more and no less than appending. */
  lemma {:induction false} ClashInsert(ts: seq<TensorInfo>, x: TensorInfo)
    ensures NoClash(Insert(ts, x, BeginOrder())) <==> NoClash(ts) && FitsAfter(ts, x)
  {
    hide NoClash;
    hide FitsAfter;
    var n := |ts| - 1;
    if n >= 0 && !(ts[n].begin <= x.begin) {
      var init, l := ts[..n], ts[n];
      ClashInsert(init, x);
      ClashSnoc(Insert(init, x, BeginOrder()), l);
      FitsInsert(init, x, l);
      assert ts == init + [l];
      ClashSnoc(init, l);
      FitsSnoc(init, l, x);
    } else {
      ClashSnoc(ts, x);
    }
  }

  lemma {:induction false} ClashSort(ts: seq<TensorInfo>)
    ensures NoClash(Sort(ts, BeginOrder())) <==> NoClash(ts)
  {
    hide NoClash;
    hide FitsAfter;
    var n := |ts| - 1;
    if n >= 0 {
      var init := ts[..n];
      ClashSort(init);
      ClashInsert(Sort(init, BeginOrder()), ts[n]);
      FitsSort(init, ts[n]);
      assert ts == init + [ts[n]];
      ClashSnoc(init, ts[n]);
    }
  }

  /** In a sorted list whose neighbours do not overlap, everything before j ends before j begins. */
  lemma {:induction false} EndsBefore(sorted: seq<TensorInfo>, i: nat, j: nat)
    requires i < j < |sorted| && Chained(sorted, |sorted| - 1) && Ordered(sorted, BeginOrder())
    ensures sorted[i].end <= sorted[j].begin
  {
    if i + 1 < j {
      assert BeginOrder()(sorted[i + 1], sorted[j]);
    }
  }

  /** For a sorted list comparing neighbours compares all pairs. */
  lemma {:induction false} ChainedIff(sorted: seq<TensorInfo>)
    requires Ordered(sorted, BeginOrder())
    ensures Chained(sorted, LastPair(sorted)) <==> NoClash(sorted)
  {
    forall p, q | 0 <= p < |sorted| && 0 <= q < |sorted|
      ensures Before(sorted, p, q) <==> p < q
    {
      if p < q {
        assert BeginOrder()(sorted[p], sorted[q]);
      } else if q < p {
        assert BeginOrder()(sorted[q], sorted[p]);
      }
    }
    if Chained(sorted, LastPair(sorted)) {
      forall p, q | 0 <= p < |sorted| && 0 <= q < |sorted| && Before(sorted, p, q)
        ensures sorted[p].end <= sorted[q].begin
      {
        EndsBefore(sorted, p, q);
      }
    }
    if NoClash(sorted) {
      forall i | 0 <= i < LastPair(sorted)
        ensures sorted[i].end <= sorted[i + 1].begin
      {
        assert Before(sorted, i, i + 1);
      }
    }
  }

  /** No tensor without bytes begins inside another one, unless both begin together and it is listed first. */
  ghost predicate EmptyClear(ts: seq<TensorInfo>) {
    forall p, q :: 0 <= p < |ts| && 0 <= q < |ts| && p != q && ts[q].Bytes() <= 0 && ts[p].Covers(ts[q].begin) ==>
      ts[p].begin == ts[q].begin && q < p
  }

  lemma {:induction false} ClashIff(ts: seq<TensorInfo>)
    ensures NoClash(ts) <==> AllDisjoint(ts) && EmptyClear(ts)
  {
    if NoClash(ts) {
      forall i, j | 0 <= i < j < |ts|
        ensures Disjoint(ts[i], ts[j])
      {
        assert Before(ts, i, j) || Before(ts, j, i);
      }
      forall p, q | 0 <= p < |ts| && 0 <= q < |ts| && p != q && ts[q].Bytes() <= 0 && ts[p].Covers(ts[q].begin)
        ensures ts[p].begin == ts[q].begin && q < p
      {
        assert Before(ts, q, p);
      }
    }
    if AllDisjoint(ts) && EmptyClear(ts) {
      forall p, q | 0 <= p < |ts| && 0 <= q < |ts| && Before(ts, p, q)
        ensures ts[p].end <= ts[q].begin
      {
        DisjointOrders(ts, p, q);
      }
    }
  }

  lemma {:induction false} DisjointOrders(ts: seq<TensorInfo>, p: nat, q: nat)
    requires p < |ts| && q < |ts| && AllDisjoint(ts) && EmptyClear(ts) && Before(ts, p, q)
    ensures ts[p].end <= ts[q].begin
  {
    assert Disjoint(ts[if p < q then p else q], ts[if p < q then q else p]);
    assert ts[q].Bytes() > 0 ==> ts[q].Covers(ts[q].begin);
    assert !ts[p].Covers(ts[q].begin);
  }

  function BytesOf(): TensorInfo -> int {
    (t: TensorInfo) => t.Bytes()
  }

  /** The chain of regions fits between the first begin and the last end. */
  lemma {:induction false} ChainFits(sorted: seq<TensorInfo>, n: nat)
    requires 0 < n <= |sorted| && Chained(sorted, |sorted| - 1) && Forward(sorted)
    ensures Total(sorted[..n], BytesOf()) <= sorted[n - 1].end - sorted[0].begin
  {
    assert sorted[..n] == sorted[..n - 1] + [sorted[n - 1]];
    TotalSnoc(sorted[..n - 1], sorted[n - 1], BytesOf());
    if n > 1 {
      ChainFits(sorted, n - 1);
    } else {
      assert sorted[..0] == [];
    }
  }

  ghost predicate InsideRegion(ts: seq<TensorInfo>, dataSize: int) {
    forall i :: 0 <= i < |ts| ==> 0 <= ts[i].begin <= ts[i].end <= dataSize
  }

  ghost predicate BeginsNonNegative(es: seq<Entry>) {
    forall i :: 0 <= i < |es| ==> InfoOf(es[i]).begin >= 0
  }

  lemma {:induction false} SortedFacts(ts: seq<TensorInfo>)
    ensures var s := Sort(ts, BeginOrder());
            |s| == |ts| && multiset(s) == multiset(ts) && Ordered(s, BeginOrder()) && (Forward(ts) ==> Forward(s))
  {
    var s := Sort(ts, BeginOrder());
    SortPermutes(ts, BeginOrder());
    SortOrders(ts, BeginOrder());
    if Forward(ts) {
      forall i | 0 <= i < |s|
        ensures s[i].begin <= s[i].end
      {
        assert s[i] in multiset(ts);
        var k :| 0 <= k < |ts| && ts[k] == s[i];
      }
    }
  }

  /** Although only neighbours in begin order are compared: a scan without errors has pairwise disjoint
      tensors, which lie inside the data region exactly when no begin offset is negative, and then their
      sizes together fit into it. */
  lemma {:induction false} CleanScanIsSound(es: seq<Entry>, dataSize: int)
    requires Scan(es, dataSize).Ok? && Scan(es, dataSize).value.errors == []
    ensures AllDisjoint(Scan(es, dataSize).value.tensors)
    ensures InsideRegion(Scan(es, dataSize).value.tensors, dataSize) <==> BeginsNonNegative(es)
    ensures BeginsNonNegative(es) && dataSize >= 0 ==> Total(Scan(es, dataSize).value.tensors, BytesOf()) <= dataSize
  {
    ScannedFacts(es, dataSize, |es|);
    var s := ScanTo(es, dataSize, |es|).value;
    var ts, sorted := s.tensors, Sort(s.tensors, BeginOrder());
    OverlapsIff(s.errors, sorted, LastPair(sorted));
    SortedFacts(ts);
    hide ScanTo;
    hide InfoOf;
    hide Sort;
    hide OverlapIssues;
    assert s.errors == [] && Chained(sorted, LastPair(sorted));
    RegionIff(es, ts, dataSize);
    ChainedIff(sorted);
    ClashSort(ts);
    ClashIff(ts);
    if |ts| > 0 {
      FitsIfNonNegative(es, ts, sorted, dataSize);
    }
  }

  lemma {:induction false} RegionIff(es: seq<Entry>, ts: seq<TensorInfo>, dataSize: int)
    requires |ts| == |es| && (forall i :: 0 <= i < |ts| ==> ts[i] == InfoOf(es[i]) && ts[i].end <= dataSize) && Forward(ts)
    ensures InsideRegion(ts, dataSize) <==> BeginsNonNegative(es)
  {
    hide InfoOf;
    if InsideRegion(ts, dataSize) {
      forall i | 0 <= i < |es|
        ensures InfoOf(es[i]).begin >= 0
      {
        assert ts[i] == InfoOf(es[i]);
      }
    }
  }

  lemma {:induction false} FitsIfNonNegative(es: seq<Entry>, ts: seq<TensorInfo>, sorted: seq<TensorInfo>, dataSize: int)
    requires |ts| == |es| == |sorted| > 0 && forall i :: 0 <= i < |ts| ==> ts[i] == InfoOf(es[i]) && ts[i].end <= dataSize
    requires multiset(sorted) == multiset(ts) && Forward(sorted) && Chained(sorted, |sorted| - 1)
    ensures BeginsNonNegative(es) ==> Total(ts, BytesOf()) <= dataSize
  {
    hide InfoOf;
    TotalPermuted(sorted, ts, BytesOf());
    ChainFits(sorted, |sorted|);
    assert sorted[..|sorted|] == sorted;
    assert sorted[0] in multiset(ts) && sorted[|sorted| - 1] in multiset(ts);
    var a :| 0 <= a < |ts| && ts[a] == sorted[0];
    var b :| 0 <= b < |ts| && ts[b] == sorted[|sorted| - 1];
    hide Total;
  }

  ghost predicate NoOverlapReported(es: seq<Entry>, dataSize: int)
    requires ScanTo(es, dataSize, |es|).Ok?
  {
    Scan(es, dataSize).value.errors == ScanTo(es, dataSize, |es|).value.errors
  }

  /** The neighbour check is exact up to tensors without bytes: for every header it reports nothing if and only
      if all pairs are disjoint and no tensor without bytes begins inside another one, where of two tensors that
      begin together the one listed first counts as outside. */
  lemma {:induction false} OverlapCheckIsExact(es: seq<Entry>, dataSize: int)
    requires ScanTo(es, dataSize, |es|).Ok?
    ensures var ts := ScanTo(es, dataSize, |es|).value.tensors;
            NoOverlapReported(es, dataSize) <==> AllDisjoint(ts) && EmptyClear(ts)
  {
    var s := ScanTo(es, dataSize, |es|).value;
    var sorted := Sort(s.tensors, BeginOrder());
    OverlapsIff(s.errors, sorted, LastPair(sorted));
    SortedFacts(s.tensors);
    hide ScanTo;
    hide Sort;
    hide OverlapIssues;
    ChainedIff(sorted);
    ClashSort(s.tensors);
    ClashIff(s.tensors);
  }

  /** With an empty tensor the check depends on listing order: placed behind a tensor that begins at the same
      offset it is reported, placed before it is not, although no byte is shared either way. */
  lemma {:induction false} EmptyTensorOrderMatters()
    ensures var full, empty := Entry("a", Some("U8"), Some([4]), Some((0, 4))), Entry("b", Some("U8"), Some([0]), Some((0, 0)));
            && Scan([full, empty], 4) == Ok(Scanned([InfoOf(full), InfoOf(empty)], [Overlap(0)]))
            && Scan([empty, full], 4) == Ok(Scanned([InfoOf(empty), InfoOf(full)], []))
            && Disjoint(InfoOf(full), InfoOf(empty))
  {
    var full, empty := Entry("a", Some("U8"), Some([4]), Some((0, 4))), Entry("b", Some("U8"), Some([0]), Some((0, 0)));
    WellFormedEntry("a", 4);
    WellFormedEntry("b", 0);
    hide InfoOf;
    hide EntryIssues;
    TwoEntries(full, empty);
    TwoEntries(empty, full);
    hide Scan;
  }

  /** A negative begin offset draws no complaint: a clean scan can hold a tensor that lies outside the data region. */
  lemma {:induction false} NegativeBeginIsClean()
    ensures var e := Entry("a", Some("U8"), Some([4]), Some((-4, 0)));
            && Scan([e], 0) == Ok(Scanned([InfoOf(e)], []))
            && !BeginsNonNegative([e]) && !InsideRegion([InfoOf(e)], 0)
  {
    var e := Entry("a", Some("U8"), Some([4]), Some((-4, 0)));
    U8Size();
    assert [4][..0] == [];
    assert ShapeProduct([4]) == 4;
    hide ElementSize;
    hide ShapeProduct;
    assert InfoOf(e) == TensorInfo("a", "U8", [4], -4, 0, 1, 4) && EntryIssues([], 0, e) == [];
    OneEntry(e);
  }

  lemma {:induction false} OneEntry(e: Entry)
    requires EntryIssues([], 0, e) == [] && InfoOf(e) == TensorInfo("a", "U8", [4], -4, 0, 1, 4)
    ensures Scan([e], 0) == Ok(Scanned([InfoOf(e)], []))
    ensures !BeginsNonNegative([e]) && !InsideRegion([InfoOf(e)], 0)
  {
    hide Scan;
    hide InfoOf;
    hide EntryIssues;
    ScanOne(e);
    assert InfoOf(e).begin == -4 && [InfoOf(e)][0] == InfoOf(e) && [e][0] == e;
    BeginOf(e);
  }

  lemma {:induction false} BeginOf(e: Entry)
    ensures BeginsNonNegative([e]) <==> InfoOf(e).begin >= 0
  {
    assert [e][0] == e;
  }

  lemma {:induction false} ScanOne(e: Entry)
    requires EntryIssues([], 0, e) == [] && InfoOf(e).end <= 0
    ensures Scan([e], 0) == Ok(Scanned([InfoOf(e)], []))
  {
    hide InfoOf;
    hide EntryIssues;
    hide Sort;
    hide BeginOrder;
    var es, a := [e], InfoOf(e);
    assert es[0] == e;
    assert ScanTo(es, 0, 0) == Ok(Scanned([], []));
    assert [] + [a] == [a];
    assert ScanTo(es, 0, 1) == Ok(Scanned([a], []));
    SortOne(a);
    assert OverlapIssues([], [a], 0) == [];
  }

  lemma {:induction false} SortOne(a: TensorInfo)
    ensures Sort([a], BeginOrder()) == [a]
  {
    var le := BeginOrder();
    assert [a][..0] == [];
    assert Sort([], le) == [];
    assert Insert([], a, le) == [a];
  }

  lemma {:induction false} WellFormedEntry(name: string, n: nat)
    ensures var e := Entry(name, Some("U8"), Some([n]), Some((0, n)));
            && InfoOf(e) == TensorInfo(name, "U8", [n], 0, n, 1, n)
            && EntryIssues([], 0, e) == [] && EntryIssues([], 1, e) == []
  {
    U8Size();
    assert [n as int][..0] == [];
    assert ShapeProduct([n]) == n;
    hide ElementSize;
    hide ShapeProduct;
  }

  lemma {:induction false} U8Size()
    ensures ElementSize("U8") == 1
  {
    var d := "U8";
    assert d[0] == 'U' && |d| == 2;
  }

  lemma {:induction false} TwoEntries(e: Entry, f: Entry)
    requires EntryIssues([], 0, e) == [] && EntryIssues([], 1, f) == []
    requires InfoOf(e).begin == InfoOf(f).begin == 0 && InfoOf(e).end <= 4 && InfoOf(f).end <= 4
    ensures Scan([e, f], 4) == Ok(Scanned([InfoOf(e), InfoOf(f)], if InfoOf(e).end > 0 then [Overlap(0)] else []))
  {
    hide InfoOf;
    hide EntryIssues;
    var es, a, b := [e, f], InfoOf(e), InfoOf(f);
    assert es[0] == e && es[1] == f;
    assert ScanTo(es, 4, 0) == Ok(Scanned([], []));
    assert [] + [a] == [a] && [a] + [b] == [a, b];
    assert ScanTo(es, 4, 1) == Ok(Scanned([a], []));
    assert ScanTo(es, 4, 2) == Ok(Scanned([a, b], []));
    SortTwo(a, b);
    assert OverlapIssues([], [a, b], 0) == [];
    assert OverlapIssues([], [a, b], 1) == if a.end > 0 then [Overlap(0)] else [];
  }

  lemma {:induction false} SortTwo(a: TensorInfo, b: TensorInfo)
    requires a.begin <= b.begin
    ensures Sort([a, b], BeginOrder()) == [a, b]
  {
    var le := BeginOrder();
    SortOne(a);
    assert [a, b][..1] == [a];
    assert Insert([a], b, le) == [a, b];
  }
}
