module ScanMeaning {
  // When a safetensors header scans cleanly, and what each complaint means, in terms of the entries themselves.

  import opened Common
  import opened Tally
  import opened Safetensors

  /** Bytes per element of the types the scan knows. */
  const WIDTHS: map<string, nat> := map[
    "F64" := 8, "I64" := 8, "F32" := 4, "I32" := 4, "U32" := 4, "BF16" := 2, "F16" := 2, "I16" := 2, "U16" := 2,
    "I8" := 1, "U8" := 1, "BOOL" := 1]

  /** The number of elements of a shape. */
  function Elements(shape: seq<int>): int {
    if |shape| == 0 then 1 else shape[0] * Elements(shape[1..])
  }

  function Start(e: Entry): int {
    if e.offsets.Some? then e.offsets.value.0 else 0
  }

  function Stop(e: Entry): int {
    if e.offsets.Some? then e.offsets.value.1 else 0
  }

  /** The declared type and shape ask for another number of bytes than the offsets give. */
  ghost predicate Mismatched(e: Entry) {
    && e.dtype.Some? && e.dtype.value in WIDTHS && e.shape.Some? && |e.shape.value| > 0
    && Elements(e.shape.value) * WIDTHS[e.dtype.value] != Stop(e) - Start(e)
  }

  ghost predicate Clean(e: Entry, dataSize: int) {
    e.dtype.Some? && e.shape.Some? && e.offsets.Some? && Start(e) <= Stop(e) <= dataSize && !Mismatched(e)
  }

  /** The one that begins first ends before the other begins; a is listed first. */
  predicate Apart(a: Entry, b: Entry) {
    if Start(a) <= Start(b) then Stop(a) <= Start(b) else Stop(b) <= Start(a)
  }

  lemma {:induction false} WidthMeans(dtype: string)
    ensures ElementSize(dtype) == if dtype in WIDTHS then WIDTHS[dtype] else 0
  {
  }

  lemma {:induction false} ElementsSnoc(shape: seq<int>, d: int)
    ensures Elements(shape + [d]) == Elements(shape) * d
  {
    if |shape| == 0 {
      assert (shape + [d])[1..] == [];
    } else {
      assert (shape + [d])[1..] == shape[1..] + [d];
      ElementsSnoc(shape[1..], d);
    }
  }

  lemma {:induction false} ElementsMean(shape: seq<int>)
    ensures ShapeProduct(shape) == Elements(shape)
  {
    if |shape| > 0 {
      ElementsMean(shape[..|shape| - 1]);
      ElementsSnoc(shape[..|shape| - 1], shape[|shape| - 1]);
      assert shape == shape[..|shape| - 1] + [shape[|shape| - 1]];
    }
  }

  lemma {:induction false} UnknownDtype()
    ensures "?" !in WIDTHS
  {
    assert |"?"| == 1;
  }

  /** The record kept for an entry. */
  lemma {:induction false} InfoMeans(e: Entry)
    ensures var t := InfoOf(e);
            && t.name == e.name && t.begin == Start(e) && t.end == Stop(e) && t.shape == e.shape.GetOr([])
            && t.dtype == e.dtype.GetOr("?")
            && t.elementSize == (if t.dtype in WIDTHS then WIDTHS[t.dtype] else 0)
            && t.expected == (if t.dtype in WIDTHS then Elements(t.shape) * WIDTHS[t.dtype] else 0)
            && (t.elementSize != 0 && t.shape != [] && t.expected != t.Bytes() <==> Mismatched(e))
  {
    WidthMeans(e.dtype.GetOr("?"));
    ElementsMean(e.shape.GetOr([]));
    UnknownDtype();
    WidthsPositive();
    hide ElementSize;
    hide ShapeProduct;
    hide Elements;
    hide WIDTHS;
  }

  lemma {:induction false} WidthsPositive()
    ensures forall d :: d in WIDTHS ==> WIDTHS[d] > 0
  {
  }

  /** What one entry adds to the complaints. */
  lemma {:induction false} ComplaintsMean(acc: seq<Issue>, at: nat, e: Entry, x: Issue)
    ensures x in EntryIssues(acc, at, e) <==>
              || x in acc
              || (x == MissingDtype(at) && e.dtype.None?) || (x == MissingShape(at) && e.shape.None?)
              || (x == MissingOffsets(at) && e.offsets.None?) || (x == Reversed(at) && Start(e) > Stop(e))
              || (x == SizeMismatch(at) && Mismatched(e))
  {
    InfoMeans(e);
    hide InfoOf;
    hide Mismatched;
    hide WIDTHS;
    hide Elements;
  }

  /** The complaint holds of the entry it names. */
  ghost predicate Justified(es: seq<Entry>, n: nat, x: Issue)
    requires n <= |es|
  {
    match x
    case MissingDtype(i) => i < n && es[i].dtype.None?
    case MissingShape(i) => i < n && es[i].shape.None?
    case MissingOffsets(i) => i < n && es[i].offsets.None?
    case Reversed(i) => i < n && Start(es[i]) > Stop(es[i])
    case SizeMismatch(i) => i < n && Mismatched(es[i])
    case Overlap(_) => false
  }

  lemma {:induction false} EntriesScanned(es: seq<Entry>, dataSize: int, n: nat, x: Issue)
    requires n <= |es|
    ensures ScanTo(es, dataSize, n).Ok? <==> forall i :: 0 <= i < n ==> Stop(es[i]) <= dataSize
    ensures ScanTo(es, dataSize, n).Ok? ==> (x in ScanTo(es, dataSize, n).value.errors <==> Justified(es, n, x))
  {
    hide EntryIssues;
    hide InfoOf;
    hide Mismatched;
    if n > 0 {
      EntriesScanned(es, dataSize, n - 1, x);
      InfoMeans(es[n - 1]);
      if ScanTo(es, dataSize, n - 1).Ok? {
        ComplaintsMean(ScanTo(es, dataSize, n - 1).value.errors, n - 1, es[n - 1], x);
      }
    }
  }

  ghost predicate AllApart(es: seq<Entry>) {
    forall p, q :: 0 <= p < q < |es| ==> Apart(es[p], es[q])
  }

  lemma {:induction false} ApartIs(es: seq<Entry>, ts: seq<TensorInfo>)
    requires |ts| == |es| && forall i :: 0 <= i < |es| ==> ts[i].begin == Start(es[i]) && ts[i].end == Stop(es[i])
    ensures NoClash(ts) <==> AllApart(es)
  {
    if NoClash(ts) {
      forall p, q | 0 <= p < q < |es|
        ensures Apart(es[p], es[q])
      {
        assert Before(ts, p, q) || Before(ts, q, p);
      }
    }
    if AllApart(es) {
      forall p, q | 0 <= p < |ts| && 0 <= q < |ts| && Before(ts, p, q)
        ensures ts[p].end <= ts[q].begin
      {
        assert Apart(es[if p < q then p else q], es[if p < q then q else p]);
      }
    }
  }

  lemma {:induction false} NeighboursMean(acc: seq<Issue>, sorted: seq<TensorInfo>, n: nat, x: Issue)
    requires n < |sorted| || n == 0
    ensures x in OverlapIssues(acc, sorted, n) <==> x in acc || (x.Overlap? && x.at < n && sorted[x.at].end > sorted[x.at + 1].begin)
  {
    if n > 0 {
      NeighboursMean(acc, sorted, n - 1, x);
    }
  }

  lemma {:induction false} ScanUnfolds(es: seq<Entry>, dataSize: int)
    ensures Scan(es, dataSize).Ok? <==> ScanTo(es, dataSize, |es|).Ok?
    ensures Scan(es, dataSize).Ok? ==>
              var s := ScanTo(es, dataSize, |es|).value;
              var sorted := Sort(s.tensors, BeginOrder());
              Scan(es, dataSize).value == Scanned(s.tensors, OverlapIssues(s.errors, sorted, LastPair(sorted)))
  {
    hide ScanTo;
    hide OverlapIssues;
    hide Sort;
  }

  /** A scan fails exactly when some tensor ends beyond the data region; otherwise it records every entry, and complains of
      an entry exactly where a field is missing, the offsets are reversed or the size does not match. */
  lemma {:induction false} ScanMeans(es: seq<Entry>, dataSize: int, x: Issue)
    ensures Scan(es, dataSize).Err? <==> exists i :: 0 <= i < |es| && Stop(es[i]) > dataSize
    ensures Scan(es, dataSize).Ok? ==>
              var s := Scan(es, dataSize).value;
              && |s.tensors| == |es| && (forall i :: 0 <= i < |es| ==> s.tensors[i] == InfoOf(es[i]))
              && (!x.Overlap? ==> (x in s.errors <==> Justified(es, |es|, x)))
  {
    hide *;
    EntriesScanned(es, dataSize, |es|, x);
    ScanUnfolds(es, dataSize);
    if Scan(es, dataSize).Ok? {
      var s := ScanTo(es, dataSize, |es|).value;
      var sorted := Sort(s.tensors, BeginOrder());
      ScannedFacts(es, dataSize, |es|);
      PairBound(sorted);
      NeighboursMean(s.errors, sorted, LastPair(sorted), x);
    }
  }

  lemma {:induction false} PairBound(sorted: seq<TensorInfo>)
    ensures LastPair(sorted) < |sorted| || LastPair(sorted) == 0
  {
  }

  lemma {:induction false} NothingJustified(es: seq<Entry>, errors: seq<Issue>, dataSize: int)
    requires forall x :: x in errors <==> Justified(es, |es|, x)
    requires forall i :: 0 <= i < |es| ==> Stop(es[i]) <= dataSize
    ensures errors == [] <==> forall i :: 0 <= i < |es| ==> Clean(es[i], dataSize)
  {
    hide Mismatched;
    if errors != [] {
      assert Justified(es, |es|, errors[0]);
    } else {
      forall i | 0 <= i < |es|
        ensures Clean(es[i], dataSize)
      {
        assert !Justified(es, |es|, MissingDtype(i)) && !Justified(es, |es|, MissingShape(i)) && !Justified(es, |es|, MissingOffsets(i));
        assert !Justified(es, |es|, Reversed(i)) && !Justified(es, |es|, SizeMismatch(i));
      }
    }
  }

  /** A header scans without complaint exactly when every entry is clean and they all lie apart. */
  lemma {:induction false} CleanIff(es: seq<Entry>, dataSize: int)
    ensures Scan(es, dataSize).Ok? && Scan(es, dataSize).value.errors == []
       <==> (forall i :: 0 <= i < |es| ==> Clean(es[i], dataSize)) && AllApart(es)
  {
    EndsInside(es, dataSize);
    hide *;
    EntriesScanned(es, dataSize, |es|, MissingDtype(0));
    ScanUnfolds(es, dataSize);
    if Scan(es, dataSize).Ok? {
      var s := ScanTo(es, dataSize, |es|).value;
      var sorted := Sort(s.tensors, BeginOrder());
      forall x
        ensures x in s.errors <==> Justified(es, |es|, x)
      {
        EntriesScanned(es, dataSize, |es|, x);
      }
      NothingJustified(es, s.errors, dataSize);
      ScannedFacts(es, dataSize, |es|);
      forall i | 0 <= i < |es|
        ensures s.tensors[i].begin == Start(es[i]) && s.tensors[i].end == Stop(es[i])
      {
        InfoMeans(es[i]);
      }
      ApartIs(es, s.tensors);
      SortedFacts(s.tensors);
      ChainedIff(sorted);
      ClashSort(s.tensors);
      PairBound(sorted);
      OverlapsIff(s.errors, sorted, LastPair(sorted));
    }
  }

  lemma {:induction false} EndsInside(es: seq<Entry>, dataSize: int)
    ensures (forall i :: 0 <= i < |es| ==> Clean(es[i], dataSize)) ==> forall i :: 0 <= i < |es| ==> Stop(es[i]) <= dataSize
  {
    hide Mismatched;
  }
}
