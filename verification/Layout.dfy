module Layout {
  // Weight layouts: the row-major transpose and the grouped-query K/V expansion.

  import opened Common

  /** Where the element at position k of the transpose sits in the row-major [rows, cols] source. */
  function TransposeSource(k: nat, rows: nat, cols: nat): (i: nat)
    requires k < rows * cols
    ensures i < rows * cols
  {
    FlatSplit(k, cols, rows);
    FlatIndex(k % rows, k / rows, rows, cols);
    (k % rows) * cols + k / rows
  }

  /** The list comprehension of the converter: columns become rows. */
  function Transpose<T>(values: seq<T>, rows: nat, cols: nat): (t: seq<T>)
    requires |values| == rows * cols
    ensures |t| == rows * cols
  {
    seq(rows * cols, k requires 0 <= k < rows * cols => values[TransposeSource(k, rows, cols)])
  }

  lemma {:induction false} TransposeAt<T>(values: seq<T>, rows: nat, cols: nat, r: nat, c: nat)
    requires |values| == rows * cols && r < rows && c < cols
    ensures r * cols + c < |values| && c * rows + r < rows * cols
    ensures Transpose(values, rows, cols)[c * rows + r] == values[r * cols + c]
  {
    FlatIndex(r, c, rows, cols);
    FlatIndex(c, r, cols, rows);
  }

  lemma {:induction false} TransposeInvolution<T>(values: seq<T>, rows: nat, cols: nat)
    requires |values| == rows * cols
    ensures Transpose(Transpose(values, rows, cols), cols, rows) == values
  {
    var back := Transpose(Transpose(values, rows, cols), cols, rows);
    forall k | 0 <= k < |values|
      ensures back[k] == values[k]
    {
      FlatSplit(k, rows, cols);
      var r, c := k / cols, k % cols;
      TransposeAt(values, rows, cols, r, c);
      TransposeAt(Transpose(values, rows, cols), cols, rows, c, r);
    }
  }

  /** The nested-loop transpose of the comparison harness fills its buffer out of order. */
  method TransposeByLoops(values: seq<real>, rows: nat, cols: nat) returns (result: array<real>)
    requires |values| == rows * cols
    ensures fresh(result) && result[..] == Transpose(values, rows, cols)
  {
    ghost var want := Transpose(values, rows, cols);
    result := new real[rows * cols](_ => 0.0);
    for r := 0 to rows
      invariant forall k :: 0 <= k < |want| && k % rows < r ==> result[k] == want[k]
    {
      FillColumn(result, values, rows, cols, r, want);
    }
    forall k | 0 <= k < |want|
      ensures result[k] == want[k]
    {
      FlatSplit(k, cols, rows);
    }
  }

  /** The target positions of column r whose row is below c. */
  ghost function ColumnUpTo(size: nat, rows: nat, r: nat, c: nat): set<int>
    requires r < rows
  {
    set k | 0 <= k < size && k % rows == r && k / rows < c
  }

  /** The inner loop: row r of the source becomes column r of the target. */
  method FillColumn(result: array<real>, values: seq<real>, rows: nat, cols: nat, r: nat, ghost want: seq<real>)
    requires |values| == rows * cols == result.Length == |want| && r < rows
    requires want == Transpose(values, rows, cols)
    modifies result
    ensures forall k :: 0 <= k < |want| && k % rows == r ==> result[k] == want[k]
    ensures forall k :: 0 <= k < |want| && k % rows != r ==> result[k] == old(result[k])
  {
    FillColumnUpTo(result, values, rows, cols, r, want);
    forall k | 0 <= k < |want| && k % rows == r
      ensures k in ColumnUpTo(|want|, rows, r, cols)
    {
      FlatSplit(k, cols, rows);
    }
  }

  method FillColumnUpTo(result: array<real>, values: seq<real>, rows: nat, cols: nat, r: nat, ghost want: seq<real>)
    requires |values| == rows * cols == result.Length == |want| && r < rows
    requires want == Transpose(values, rows, cols)
    modifies result
    ensures forall k :: 0 <= k < |want| && k in ColumnUpTo(|want|, rows, r, cols) ==> result[k] == want[k]
    ensures forall k :: 0 <= k < |want| && k !in ColumnUpTo(|want|, rows, r, cols) ==> result[k] == old(result[k])
  {
    assert ColumnUpTo(|want|, rows, r, 0) == {};
    hide *;
    for c := 0 to cols
      invariant forall k :: 0 <= k < |want| && k in ColumnUpTo(|want|, rows, r, c) ==> result[k] == want[k]
      invariant forall k :: 0 <= k < |want| && k !in ColumnUpTo(|want|, rows, r, c) ==> result[k] == old(result[k])
    {
      ColumnElement(values, rows, cols, r, c);
      StoreElement(result, c * rows + r, values[r * cols + c]);
    }
  }

  method StoreElement(result: array<real>, p: nat, x: real)
    requires p < result.Length
    modifies result
    ensures result[p] == x
    ensures forall k :: 0 <= k < result.Length && k != p ==> result[k] == old(result[k])
  {
    result[p] := x;
  }

  lemma {:induction false} ColumnElement(values: seq<real>, rows: nat, cols: nat, r: nat, c: nat)
    requires |values| == rows * cols && r < rows && c < cols
    ensures r * cols + c < |values| && c * rows + r < |values|
    ensures Transpose(values, rows, cols)[c * rows + r] == values[r * cols + c]
    ensures ColumnUpTo(|values|, rows, r, c + 1) == ColumnUpTo(|values|, rows, r, c) + {c * rows + r}
  {
    TransposeAt(values, rows, cols, r, c);
    hide Transpose;
    FlatIndex(c, r, cols, rows);
    forall k | k in ColumnUpTo(|values|, rows, r, c + 1) && k / rows == c
      ensures k == c * rows + r
    {
      FlatSplit(k, cols, rows);
    }
  }

  // ------------------------------------------------- grouped-query expansion

  /** The key/value head that serves query head q. */
  function KvHeadOf(q: nat, nHeads: nat, nKvHeads: nat): (h: nat)
    requires nKvHeads > 0 && nHeads % nKvHeads == 0 && q < nHeads
    ensures h < nKvHeads
  {
    var group := nHeads / nKvHeads;
    assert nHeads == nKvHeads * group;
    FlatSplit(q, nKvHeads, group);
    q / group
  }

  /** The shapes the expansion accepts: d = n_heads * head_dim and kv = n_kv_heads * head_dim. */
  ghost predicate Dims(d: nat, kv: nat, headDim: nat, nHeads: nat, nKvHeads: nat) {
    && nKvHeads > 0 && nHeads > 0 && nHeads % nKvHeads == 0
    && d == nHeads * headDim
    && kv == nKvHeads * headDim
  }

  /** The source row that feeds target column (query head, i). */
  function SourceRow(dstCol: nat, d: nat, kv: nat, headDim: nat, nHeads: nat, nKvHeads: nat): (row: nat)
    requires Dims(d, kv, headDim, nHeads, nKvHeads) && dstCol < d
    ensures row < kv
  {
    FlatSplit(dstCol, nHeads, headDim);
    var kvHead := KvHeadOf(dstCol / headDim, nHeads, nKvHeads);
    FlatIndex(kvHead, dstCol % headDim, nKvHeads, headDim);
    kvHead * headDim + dstCol % headDim
  }

  lemma {:induction false} SourceRowOf(q: nat, i: nat, d: nat, kv: nat, headDim: nat, nHeads: nat, nKvHeads: nat)
    requires Dims(d, kv, headDim, nHeads, nKvHeads)
    requires q < nHeads && i < headDim
    ensures q * headDim + i < d
    ensures SourceRow(q * headDim + i, d, kv, headDim, nHeads, nKvHeads) == KvHeadOf(q, nHeads, nKvHeads) * headDim + i
  {
    FlatIndex(q, i, nHeads, headDim);
  }

  /** Position k = (inCol, dstCol) of the [d, d] target is read from (SourceRow(dstCol), inCol). */
  function GqaSource(k: nat, d: nat, kv: nat, headDim: nat, nHeads: nat, nKvHeads: nat): (i: nat)
    requires Dims(d, kv, headDim, nHeads, nKvHeads)
    requires k < d * d
    ensures i < kv * d
  {
    hide *;
    FlatSplit(k, d, d);
    var row := SourceRow(k % d, d, kv, headDim, nHeads, nKvHeads);
    FlatIndex(row, k / d, kv, d);
    row * d + k / d
  }

  function Expanded<T>(values: seq<T>, d: nat, kv: nat, headDim: nat, nHeads: nat, nKvHeads: nat): (r: seq<T>)
    requires Dims(d, kv, headDim, nHeads, nKvHeads)
    requires |values| == kv * d
    ensures |r| == d * d
  {
    seq(d * d, k requires 0 <= k < d * d => values[GqaSource(k, d, kv, headDim, nHeads, nKvHeads)])
  }

  /** `_expand_gqa_projection`: error cases first, then the repeated projection. */
  function ExpandGqa<T>(values: seq<T>, sourceRows: nat, sourceCols: nat, nHeads: int, nKvHeads: int): (r: Result<seq<T>>)
    requires |values| == sourceRows * sourceCols
  {
    if nKvHeads == nHeads then Ok(Transpose(values, sourceRows, sourceCols))
    else if nKvHeads <= 0 || nHeads <= 0 || nHeads % nKvHeads != 0 then Err("unsupported GQA shape")
    else if sourceRows % nKvHeads != 0 then Err("GQA source rows not divisible by n_kv_heads")
    else
      var headDim := sourceRows / nKvHeads;
      if sourceCols != nHeads * headDim then Err("GQA dimensions inconsistent")
      else
        assert sourceRows == nKvHeads * headDim;
        Ok(Expanded(values, sourceCols, sourceRows, headDim, nHeads, nKvHeads))
  }

  /** An element of the expansion, by target row and column. */
  lemma {:induction false} ExpandedAt<T>(values: seq<T>, d: nat, kv: nat, headDim: nat, nHeads: nat, nKvHeads: nat, inCol: nat, dstCol: nat)
    requires Dims(d, kv, headDim, nHeads, nKvHeads)
    requires |values| == kv * d && inCol < d && dstCol < d
    ensures inCol * d + dstCol < d * d
    ensures SourceRow(dstCol, d, kv, headDim, nHeads, nKvHeads) * d + inCol < kv * d
    ensures Expanded(values, d, kv, headDim, nHeads, nKvHeads)[inCol * d + dstCol]
         == values[SourceRow(dstCol, d, kv, headDim, nHeads, nKvHeads) * d + inCol]
  {
    hide SourceRow;
    FlatIndex(inCol, dstCol, d, d);
    FlatIndex(SourceRow(dstCol, d, kv, headDim, nHeads, nKvHeads), inCol, kv, d);
  }

  /** The expansion repeats columns: target column dstCol is the transposed source's column SourceRow(dstCol). */
  lemma {:induction false} ExpandedColumn<T>(values: seq<T>, d: nat, kv: nat, headDim: nat, nHeads: nat, nKvHeads: nat, inCol: nat, dstCol: nat)
    requires Dims(d, kv, headDim, nHeads, nKvHeads)
    requires |values| == kv * d && inCol < d && dstCol < d
    ensures var col := SourceRow(dstCol, d, kv, headDim, nHeads, nKvHeads);
            && inCol * d + dstCol < d * d
            && inCol * kv + col < kv * d
            && Expanded(values, d, kv, headDim, nHeads, nKvHeads)[inCol * d + dstCol]
               == Transpose(values, kv, d)[inCol * kv + col]
  {
    hide SourceRow;
    hide Expanded;
    var col := SourceRow(dstCol, d, kv, headDim, nHeads, nKvHeads);
    ExpandedAt(values, d, kv, headDim, nHeads, nKvHeads, inCol, dstCol);
    TransposeAt(values, kv, d, col, inCol);
  }

  /** Element i of query head q, in row inCol: n_heads / n_kv_heads query heads in a row read the same rows of the source. */
  lemma {:induction false} ExpandedByHead<T>(values: seq<T>, d: nat, kv: nat, headDim: nat, nHeads: nat, nKvHeads: nat,
                                             inCol: nat, q: nat, i: nat)
    requires Dims(d, kv, headDim, nHeads, nKvHeads)
    requires |values| == kv * d && inCol < d && q < nHeads && i < headDim
    ensures nHeads / nKvHeads > 0
    ensures var at, from := inCol * d + q * headDim + i, ((q / (nHeads / nKvHeads)) * headDim + i) * d + inCol;
            && 0 <= at < d * d && 0 <= from < |values|
            && Expanded(values, d, kv, headDim, nHeads, nKvHeads)[at] == values[from]
  {
    GroupIsWhole(nHeads, nKvHeads);
    assert KvHeadOf(q, nHeads, nKvHeads) == q / (nHeads / nKvHeads);
    hide *;
    SourceRowOf(q, i, d, kv, headDim, nHeads, nKvHeads);
    ExpandedAt(values, d, kv, headDim, nHeads, nKvHeads, inCol, q * headDim + i);
  }

  lemma {:induction false} GroupIsWhole(nHeads: nat, nKvHeads: nat)
    requires nKvHeads > 0 && nHeads > 0 && nHeads % nKvHeads == 0
    ensures nHeads / nKvHeads > 0
  {
  }

  /** What the expansion accepts, and what it returns. */
  lemma {:induction false} ExpansionMeans<T>(values: seq<T>, rows: nat, cols: nat, nHeads: int, nKvHeads: int)
    requires |values| == rows * cols
    ensures ExpandGqa(values, rows, cols, nHeads, nKvHeads).Ok?
       <==> || nKvHeads == nHeads
            || (0 < nKvHeads && 0 < nHeads && nHeads % nKvHeads == 0 && rows % nKvHeads == 0 && cols == nHeads * (rows / nKvHeads))
    ensures nKvHeads == nHeads ==> ExpandGqa(values, rows, cols, nHeads, nKvHeads) == Ok(Transpose(values, rows, cols))
    ensures ExpandGqa(values, rows, cols, nHeads, nKvHeads).Ok? && nKvHeads != nHeads ==>
              && Dims(cols, rows, rows / nKvHeads, nHeads, nKvHeads)
              && ExpandGqa(values, rows, cols, nHeads, nKvHeads) == Ok(Expanded(values, cols, rows, rows / nKvHeads, nHeads, nKvHeads))
  {
    hide Transpose;
    hide Expanded;
  }

  /** The three nested loops of the expansion fill the target front to back. */
  method ExpandGqaByLoops(values: seq<real>, sourceRows: nat, sourceCols: nat, nHeads: int, nKvHeads: int)
    returns (r: Result<seq<real>>)
    requires |values| == sourceRows * sourceCols
    ensures r == ExpandGqa(values, sourceRows, sourceCols, nHeads, nKvHeads)
  {
    if nKvHeads == nHeads {
      return Ok(Transpose(values, sourceRows, sourceCols));
    }
    if nKvHeads <= 0 || nHeads <= 0 || nHeads % nKvHeads != 0 {
      return Err("unsupported GQA shape");
    }
    if sourceRows % nKvHeads != 0 {
      return Err("GQA source rows not divisible by n_kv_heads");
    }
    var headDim := sourceRows / nKvHeads;
    assert sourceRows == nKvHeads * headDim;
    if sourceCols != nHeads * headDim {
      return Err("GQA dimensions inconsistent");
    }
    var expanded := FillExpanded(values, sourceCols, sourceRows, headDim, nHeads, nKvHeads);
    r := Ok(expanded[..]);
  }

  method FillExpanded(values: seq<real>, d: nat, kv: nat, headDim: nat, nHeads: nat, nKvHeads: nat)
    returns (expanded: array<real>)
    requires Dims(d, kv, headDim, nHeads, nKvHeads)
    requires |values| == kv * d
    ensures fresh(expanded) && expanded[..] == Expanded(values, d, kv, headDim, nHeads, nKvHeads)
  {
    expanded := new real[d * d](_ => 0.0);
    ghost var want := Expanded(values, d, kv, headDim, nHeads, nKvHeads);
    for inCol := 0 to d
      invariant inCol * d <= d * d
      invariant expanded[..inCol * d] == want[..inCol * d]
    {
      FillRow(expanded, values, d, kv, headDim, nHeads, nKvHeads, inCol, want);
    }
  }

  method FillRow(expanded: array<real>, values: seq<real>, d: nat, kv: nat, headDim: nat, nHeads: nat, nKvHeads: nat,
                 inCol: nat, ghost want: seq<real>)
    requires Dims(d, kv, headDim, nHeads, nKvHeads)
    requires |values| == kv * d && inCol < d && expanded.Length == d * d
    requires want == Expanded(values, d, kv, headDim, nHeads, nKvHeads)
    requires inCol * d <= d * d && expanded[..inCol * d] == want[..inCol * d]
    modifies expanded
    ensures (inCol + 1) * d <= d * d && expanded[..(inCol + 1) * d] == want[..(inCol + 1) * d]
  {
    hide Expanded;
    FlatRowBound(inCol, d, d);
    var group := nHeads / nKvHeads;
    for q := 0 to nHeads
      invariant 0 <= q * headDim <= d
      invariant expanded[..inCol * d + q * headDim] == want[..inCol * d + q * headDim]
    {
      FlatRowBound(q, nHeads, headDim);
      var kvHead := q / group;
      FillHead(expanded, values, d, kv, headDim, nHeads, nKvHeads, inCol, q, kvHead, inCol * d + q * headDim, want);
    }
  }

  method FillHead(expanded: array<real>, values: seq<real>, d: nat, kv: nat, headDim: nat, nHeads: nat, nKvHeads: nat,
                  inCol: nat, q: nat, kvHead: nat, ghost base: nat, ghost want: seq<real>)
    requires Dims(d, kv, headDim, nHeads, nKvHeads)
    requires |values| == kv * d && inCol < d && expanded.Length == d * d == |want|
    requires q < nHeads && kvHead == KvHeadOf(q, nHeads, nKvHeads)
    requires want == Expanded(values, d, kv, headDim, nHeads, nKvHeads)
    requires base == inCol * d + q * headDim && base + headDim <= |want|
    requires expanded[..base] == want[..base]
    modifies expanded
    ensures expanded[..base + headDim] == want[..base + headDim]
  {
    hide *;
    for i := 0 to headDim
      invariant expanded[..base + i] == want[..base + i]
    {
      CopyElement(expanded, values, d, kv, headDim, nHeads, nKvHeads, inCol, q, kvHead, i, base + i, want);
    }
  }

  /** The innermost statement: one element of head q of row inCol. */
  method CopyElement(expanded: array<real>, values: seq<real>, d: nat, kv: nat, headDim: nat, nHeads: nat, nKvHeads: nat,
                     inCol: nat, q: nat, kvHead: nat, i: nat, ghost p: nat, ghost want: seq<real>)
    requires Dims(d, kv, headDim, nHeads, nKvHeads)
    requires |values| == kv * d && inCol < d && expanded.Length == d * d == |want|
    requires q < nHeads && i < headDim && kvHead == KvHeadOf(q, nHeads, nKvHeads)
    requires want == Expanded(values, d, kv, headDim, nHeads, nKvHeads)
    requires p == inCol * d + q * headDim + i && p < |want|
    modifies expanded
    ensures expanded[p] == want[p]
    ensures forall k :: 0 <= k < expanded.Length && k != p ==> expanded[k] == old(expanded[k])
  {
    hide *;
    var srcRow, dstCol := kvHead * headDim + i, q * headDim + i;
    SourceRowOf(q, i, d, kv, headDim, nHeads, nKvHeads);
    ExpandedAt(values, d, kv, headDim, nHeads, nKvHeads, inCol, dstCol);
    StoreFromRow(expanded, values, d, kv, headDim, nHeads, nKvHeads, inCol, srcRow, dstCol, inCol * d + dstCol, want);
  }

  method StoreFromRow(expanded: array<real>, values: seq<real>, d: nat, kv: nat, headDim: nat, nHeads: nat, nKvHeads: nat,
                      inCol: nat, srcRow: nat, dstCol: nat, at: nat, ghost want: seq<real>)
    requires Dims(d, kv, headDim, nHeads, nKvHeads)
    requires |values| == kv * d && inCol < d && dstCol < d && expanded.Length == d * d
    requires at == inCol * d + dstCol && at < expanded.Length
    requires srcRow == SourceRow(dstCol, d, kv, headDim, nHeads, nKvHeads)
    requires want == Expanded(values, d, kv, headDim, nHeads, nKvHeads)
    modifies expanded
    ensures expanded[at] == want[at]
    ensures forall k :: 0 <= k < expanded.Length && k != at ==> expanded[k] == old(expanded[k])
  {
    hide *;
    ExpandedAt(values, d, kv, headDim, nHeads, nKvHeads, inCol, dstCol);
    StoreElement(expanded, at, values[srcRow * d + inCol]);
  }
}
