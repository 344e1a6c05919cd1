module FileForward {
  // The forward pass over the weights of a built file, against the forward pass of the source model.

  import opened Common
  import opened Bytes
  import opened Decimal
  import opened TensorPlan
  import opened PlannedTensors
  import opened HarnessWeights
  import opened SourceNames
  import Writer = Att1Writer
  import Reader = Att1Reader
  import Layout
  import RoundTrip = Att1RoundTrip
  import End = EndToEnd
  import LA = LinearAlgebra
  import FP = ForwardPass
  import Gqa = GqaTheorem

  // ------------------------------------------------------- models in dictionaries

  function Natural(i: int): nat {
    if i < 0 then 0 else i
  }

  function VectorIn(w: Arrays, name: string): seq<real> {
    if name in w then w[name].values else []
  }

  function MatrixIn(w: Arrays, name: string): LA.Matrix {
    if name in w && |w[name].shape| == 2 then LA.Matrix(Natural(w[name].shape[0]), Natural(w[name].shape[1]), w[name].values)
    else LA.Matrix(0, 0, [])
  }

  /** The weights the pass looks up for one layer. */
  function LayerIn(w: Arrays, l: nat): FP.Layer {
    FP.Layer(VectorIn(w, LayerName(l, Suffix(0))), MatrixIn(w, LayerName(l, Suffix(1))), MatrixIn(w, LayerName(l, Suffix(2))),
             MatrixIn(w, LayerName(l, Suffix(3))), MatrixIn(w, LayerName(l, Suffix(4))), VectorIn(w, LayerName(l, Suffix(5))),
             MatrixIn(w, LayerName(l, Suffix(6))), MatrixIn(w, LayerName(l, Suffix(7))), MatrixIn(w, LayerName(l, Suffix(8))))
  }

  function ConfigWith(c: Config, nKvHeads: int, theta: real): FP.Config {
    FP.Config(LayerCount(c), Natural(c.nHeads), nKvHeads, Natural(c.dModel), Natural(c.dFf), Natural(c.vocabSize), theta)
  }

  function ModelIn(maths: LA.Maths, c: Config, nKvHeads: int, theta: real, w: Arrays): FP.Model {
    FP.Model(maths, ConfigWith(c, nKvHeads, theta),
             FP.Weights(MatrixIn(w, "tok_embeddings.weight"), seq(LayerCount(c), l requires 0 <= l < LayerCount(c) => LayerIn(w, l)),
                        VectorIn(w, "output_norm.weight"), MatrixIn(w, "output.weight")))
  }

  // ----------------------------------------------------------------- the arrays

  /** A key/value projection that keeps its own width instead of being expanded. */
  function Ungrouped(item: SourceItem): SourceItem {
    if item.gqaExpand && |item.sourceShape| == 2 then item.(targetShape := [item.sourceShape[1], item.sourceShape[0]]) else item
  }

  function UngroupedAll(items: seq<SourceItem>): (r: seq<SourceItem>)
    ensures |r| == |items|
  {
    seq(|items|, i requires 0 <= i < |items| => Ungrouped(items[i]))
  }

  /** What the file holds for an item that was loaded. */
  function FileArray(f: F32, c: Config, src: Source, item: SourceItem): Array
    requires WellSized(src)
  {
    match LoadItem(src, item)
    case Err(_) => Array(item.targetShape, [])
    case Ok(values) =>
      match Arrange(c, item, values)
      case Err(_) => Array(item.targetShape, [])
      case Ok(arranged) => Array(item.targetShape, StoredAll(f, arranged))
  }

  lemma {:induction false} StoredTranspose(f: F32, values: seq<real>, rows: nat, cols: nat)
    requires |values| == rows * cols
    ensures StoredAll(f, Layout.Transpose(values, rows, cols)) == Layout.Transpose(StoredAll(f, values), rows, cols)
  {
    hide Layout.TransposeSource;
  }

  lemma {:induction false} StoredExpanded(f: F32, values: seq<real>, d: nat, kv: nat, headDim: nat, nHeads: nat, nKvHeads: nat)
    requires Layout.Dims(d, kv, headDim, nHeads, nKvHeads) && |values| == kv * d
    ensures StoredAll(f, Layout.Expanded(values, d, kv, headDim, nHeads, nKvHeads))
         == Layout.Expanded(StoredAll(f, values), d, kv, headDim, nHeads, nKvHeads)
  {
    hide Layout.GqaSource;
    hide Layout.Dims;
  }

  /** Expanding and storing commute. */
  lemma {:induction false} StoredExpand(f: F32, values: seq<real>, rows: nat, cols: nat, nHeads: int, nKvHeads: int)
    requires |values| == rows * cols && Layout.ExpandGqa(values, rows, cols, nHeads, nKvHeads).Ok?
    ensures Layout.ExpandGqa(StoredAll(f, values), rows, cols, nHeads, nKvHeads)
         == Ok(StoredAll(f, Layout.ExpandGqa(values, rows, cols, nHeads, nKvHeads).value))
  {
    hide Layout.Expanded;
    hide Layout.Transpose;
    hide StoredAll;
    if nKvHeads == nHeads {
      StoredTranspose(f, values, rows, cols);
    } else {
      assert rows == nKvHeads * (rows / nKvHeads);
      StoredExpanded(f, values, cols, rows, rows / nKvHeads, nHeads, nKvHeads);
    }
  }

  // ------------------------------------------------------------- planned items

  ghost predicate Flagged(c: Config, item: SourceItem) {
    item.gqaExpand ==> item.transpose && c.nKvHeads != c.nHeads
  }

  lemma {:induction false} LayerFlagged(c: Config, layer: nat, k: nat)
    requires c.nHeads != 0 && k < 9
    ensures k < |LayerItems(c, layer)| && Flagged(c, LayerItems(c, layer)[k])
    ensures LayerItems(c, layer)[k].gqaExpand <==> (k == 2 || k == 3) && c.nKvHeads != c.nHeads
  {
    hide LayerName;
    hide SourceName;
    hide FloorDiv;
  }

  lemma {:induction false} PlanFlagged(c: Config, i: nat)
    requires c.nHeads != 0 && i < |SourcePlan(c)|
    ensures Flagged(c, SourcePlan(c)[i])
  {
    hide ItemsUpTo;
    hide LayerItems;
    if 1 <= i <= 9 * LayerCount(c) {
      ItemOfLayer(c, LayerCount(c), i - 1);
      LayerFlagged(c, (i - 1) / 9, (i - 1) % 9);
    }
  }

  lemma {:induction false} Fetched(src: Source, item: SourceItem)
    requires WellSized(src) && LoadItem(src, item).Ok?
    ensures Fetch(src, item) == LoadItem(src, item) && |LoadItem(src, item).value| == Product(item.sourceShape)
  {
  }

  /** Where nothing is expanded, file and harness arrive at the same array. */
  lemma {:induction false} PlainArray(f: F32, c: Config, src: Source, item: SourceItem)
    requires Accepted(c) && WellSized(src) && Convertible(c, item) && LoadItem(src, item).Ok? && !item.gqaExpand
    ensures |FileArray(f, c, src, item).values| == Product(item.targetShape)
    ensures SourceArray(f, src, item) == Ok(FileArray(f, c, src, item))
  {
    var values := LoadItem(src, item).value;
    Fetched(src, item);
    ArrangeSucceeds(c, item, values);
    hide Accepted;
    hide LoadItem;
    hide Fetch;
    hide StoredAll;
    hide Layout.Transpose;
    if item.transpose {
      ProductOfTwo(item.sourceShape);
      hide Product;
      assert values[..|values|] == values;
      assert Turn(item, values) == Arrange(c, item, values);
    } else {
      hide Product;
    }
  }

  ghost predicate Expanding(c: Config, src: Source, item: SourceItem) {
    c.nHeads != 0 && WellSized(src) && Convertible(c, item) && Flagged(c, item) && LoadItem(src, item).Ok? && item.gqaExpand
  }

  lemma {:induction false} ExpandingShape(c: Config, src: Source, item: SourceItem)
    requires Accepted(c) && Expanding(c, src, item)
    ensures |item.sourceShape| == 2 && item.transpose && 0 < item.sourceShape[0] < item.sourceShape[1]
    ensures item.targetShape == [item.sourceShape[1], item.sourceShape[1]]
    ensures |LoadItem(src, item).value| == Product(item.sourceShape)
  {
    Fetched(src, item);
    FewerColumns(c);
    hide Accepted;
    hide WellSized;
    hide LoadItem;
    hide Product;
  }

  lemma {:induction false} ExpandingSizes(c: Config, src: Source, item: SourceItem)
    requires Accepted(c) && Expanding(c, src, item)
    ensures |item.sourceShape| == 2 && item.transpose && 0 < item.sourceShape[0] < item.sourceShape[1]
    ensures var kv, d := item.sourceShape[0], item.sourceShape[1];
            && |LoadItem(src, item).value| == Product(item.sourceShape) == kv * d < d * d
            && item.targetShape == [d, d] && Product(item.targetShape) == d * d && Product([d, kv]) == kv * d
  {
    hide *;
    ExpandingShape(c, src, item);
    var kv, d := item.sourceShape[0], item.sourceShape[1];
    ProductOfTwo(item.sourceShape);
    ProductOfTwo([d, d]);
    ProductOfTwo([d, kv]);
    MulMonotone(kv + 1, d, d);
  }

  lemma {:induction false} FewerColumns(c: Config)
    requires Accepted(c) && c.nKvHeads != c.nHeads
    ensures c.nHeads > 0 && 0 < c.nKvHeads * (c.dModel / c.nHeads) < c.dModel
  {
    HeadsDivide(c);
    hide *;
    MulMonotone(c.nKvHeads + 1, c.nHeads, c.dModel / c.nHeads);
  }

  /** A key/value projection with fewer heads: the file holds its expansion. */
  lemma {:induction false} ExpandedInFile(f: F32, c: Config, src: Source, item: SourceItem)
    requires Accepted(c) && Expanding(c, src, item)
    ensures |item.sourceShape| == 2 && item.sourceShape[0] >= 0 && item.sourceShape[1] >= 0
    ensures var kv, d, stored := item.sourceShape[0], item.sourceShape[1], StoredAll(f, LoadItem(src, item).value);
            && |stored| == kv * d && |FileArray(f, c, src, item).values| == Product(item.targetShape)
            && Layout.ExpandGqa(stored, kv, d, c.nHeads, c.nKvHeads) == Ok(FileArray(f, c, src, item).values)
  {
    ExpandingSizes(c, src, item);
    var values, kv, d := LoadItem(src, item).value, item.sourceShape[0], item.sourceShape[1];
    ArrangeSucceeds(c, item, values);
    assert Arrange(c, item, values) == Layout.ExpandGqa(values, kv, d, c.nHeads, c.nKvHeads);
    hide *;
    StoredExpand(f, values, kv, d, c.nHeads, c.nKvHeads);
    FileArrayIs(f, c, src, item);
  }

  lemma {:induction false} FileArrayIs(f: F32, c: Config, src: Source, item: SourceItem)
    requires WellSized(src) && LoadItem(src, item).Ok? && |LoadItem(src, item).value| == Product(item.sourceShape)
    requires Arrange(c, item, LoadItem(src, item).value).Ok?
    ensures FileArray(f, c, src, item) == Array(item.targetShape, StoredAll(f, Arrange(c, item, LoadItem(src, item).value).value))
  {
    hide Arrange;
    hide LoadItem;
    hide StoredAll;
  }

  /** The harness cannot shape it, and left ungrouped it is the transpose of what the source holds. */
  lemma {:induction false} GroupedInSource(f: F32, c: Config, src: Source, item: SourceItem)
    requires Accepted(c) && Expanding(c, src, item)
    ensures |item.sourceShape| == 2 && item.sourceShape[0] >= 0 && item.sourceShape[1] >= 0
    ensures var kv, d, stored := item.sourceShape[0], item.sourceShape[1], StoredAll(f, LoadItem(src, item).value);
            && |stored| == kv * d
            && SourceArray(f, src, Ungrouped(item)) == Ok(Array([d, kv], Layout.Transpose(stored, kv, d)))
    ensures SourceArray(f, src, item).Err?
  {
    ExpandingSizes(c, src, item);
    Fetched(src, item);
    var values, kv, d := LoadItem(src, item).value, item.sourceShape[0], item.sourceShape[1];
    StoredTranspose(f, values, kv, d);
    var turned := Layout.Transpose(values, kv, d);
    assert |StoredAll(f, turned)| == kv * d;
    assert Turn(item, values) == Ok(turned) by { TakeAll(values); }
    assert Turn(Ungrouped(item), values) == Turn(item, values) && Fetch(src, Ungrouped(item)) == Fetch(src, item);
    assert Ungrouped(item).targetShape == [d, kv];
    SourceArrayIs(f, src, item, values, turned);
    SourceArrayIs(f, src, Ungrouped(item), values, turned);
  }

  lemma {:induction false} SourceArrayIs(f: F32, src: Source, item: SourceItem, values: seq<real>, turned: seq<real>)
    requires Fetch(src, item) == Ok(values) && Turn(item, values) == Ok(turned)
    ensures SourceArray(f, src, item) == Reshape(StoredAll(f, turned), item.targetShape)
  {
    hide Fetch;
    hide Turn;
    hide Reshape;
  }

  // ----------------------------------------------------------------- the names

  function Names(c: Config): (s: seq<string>)
    ensures |s| == |NamePlan(c)|
  {
    seq(|NamePlan(c)|, i requires 0 <= i < |NamePlan(c)| => NamePlan(c)[i].name)
  }

  lemma {:induction false} LayerPlace(c: Config, l: nat, k: nat)
    requires c.nHeads != 0 && l < LayerCount(c) && k < 9
    ensures 1 + 9 * l + k <= 9 * LayerCount(c) && |LayerItems(c, l)| == 9
    ensures NamePlan(c)[1 + 9 * l + k] == LayerEntries(c, l)[k] && SourcePlan(c)[1 + 9 * l + k] == LayerItems(c, l)[k]
    ensures Names(c)[1 + 9 * l + k] == LayerName(l, Suffix(k))
  {
    hide LayerItems;
    hide LayerEntries;
    hide ItemsUpTo;
    hide EntriesUpTo;
    hide LayerName;
    hide Suffix;
    var i := 9 * l + k;
    assert i / 9 == l && i % 9 == k;
    EntryOfLayer(c, LayerCount(c), i);
    ItemOfLayer(c, LayerCount(c), i);
    LayerEntryName(c, l, k);
  }

  /** The letter before ".weight" tells the suffixes apart, except for the two norms, which differ in length. */
  lemma {:induction false} SuffixEnd(k: nat)
    requires k < 9
    ensures |Suffix(k)| >= 8 && Suffix(k)[|Suffix(k)| - 8] == "mqkvomepn"[k]
    ensures (k == 0 ==> |Suffix(k)| == 22) && (k == 5 ==> |Suffix(k)| == 16)
  {
  }

  lemma {:induction false} SuffixesDiffer(j: nat, k: nat)
    requires j < k < 9
    ensures Suffix(j) != Suffix(k)
  {
    hide Suffix;
    SuffixEnd(j);
    SuffixEnd(k);
  }

  lemma {:induction false} LayerNamesDiffer(l: nat, j: nat, m: nat, k: nat)
    requires j < 9 && k < 9 && LayerName(l, Suffix(j)) == LayerName(m, Suffix(k))
    ensures l == m && j == k
  {
    Writer.LayerOfName(l, Suffix(j));
    Writer.LayerOfName(m, Suffix(k));
    var prefix := "layers." + Digits(l);
    assert LayerName(l, Suffix(j))[|prefix|..] == Suffix(j) && LayerName(m, Suffix(k))[|prefix|..] == Suffix(k);
    hide Suffix;
    if j < k {
      SuffixesDiffer(j, k);
    } else if k < j {
      SuffixesDiffer(k, j);
    }
  }

  /** No two tensors of the plan share a name. */
  lemma {:induction false} NamesDistinct(c: Config)
    requires c.nHeads != 0
    ensures Distinct(Names(c))
  {
    hide Names;
    hide NamePlan;
    forall i, j | 0 <= i < j < |Names(c)|
      ensures Names(c)[i] != Names(c)[j]
    {
      NamesDiffer(c, i, j);
    }
  }

  lemma {:induction false} OuterNames(c: Config)
    ensures var n := 9 * LayerCount(c);
            && |Names(c)| == n + 3 && Names(c)[0] == "tok_embeddings.weight"
            && Names(c)[n + 1] == "output_norm.weight" && Names(c)[n + 2] == "output.weight"
  {
    hide EntriesUpTo;
  }

  lemma {:induction false} NamesDiffer(c: Config, i: nat, j: nat)
    requires c.nHeads != 0 && i < j < |Names(c)|
    ensures Names(c)[i] != Names(c)[j]
  {
    hide *;
    OuterNames(c);
    var n := 9 * LayerCount(c);
    if 1 <= i <= n {
      InnerName(c, i);
    }
    if 1 <= j <= n {
      InnerName(c, j);
    }
    if 1 <= i <= n && 1 <= j <= n && Names(c)[i] == Names(c)[j] {
      LayerNamesDiffer((i - 1) / 9, (i - 1) % 9, (j - 1) / 9, (j - 1) % 9);
    }
  }

  lemma {:induction false} InnerName(c: Config, i: nat)
    requires c.nHeads != 0 && 1 <= i <= 9 * LayerCount(c)
    ensures |Names(c)| == 3 + 9 * LayerCount(c) && Names(c)[i] == LayerName((i - 1) / 9, Suffix((i - 1) % 9))
    ensures |Names(c)[i]| > 0 && Names(c)[i][0] == 'l'
  {
    hide NamePlan;
    hide LayerItems;
    hide Suffix;
    LayerPlace(c, (i - 1) / 9, (i - 1) % 9);
  }

  // ---------------------------------------------------------- the two dictionaries

  /** The arrays of a built f32 file, in plan order. */
  function InFile(f: F32, c: Config, src: Source): (a: seq<Array>)
    requires c.nHeads != 0 && WellSized(src)
    ensures |a| == |SourcePlan(c)|
  {
    seq(|SourcePlan(c)|, i requires 0 <= i < |SourcePlan(c)| => FileArray(f, c, src, SourcePlan(c)[i]))
  }

  function Got(r: Result<Array>): Array {
    match r
    case Ok(a) => a
    case Err(_) => Array([], [])
  }

  /** The arrays of the source model, key/value projections at their own width. */
  function InSource(f: F32, c: Config, src: Source): (a: seq<Array>)
    requires c.nHeads != 0
    ensures |a| == |SourcePlan(c)|
  {
    seq(|SourcePlan(c)|, i requires 0 <= i < |SourcePlan(c)| => Got(SourceArray(f, src, Ungrouped(SourcePlan(c)[i]))))
  }

  ghost predicate Sourced(c: Config, src: Source) {
    Accepted(c) && WellSized(src) && Loadable(src, SourcePlan(c))
  }

  /** Item i of the plan: what the file holds has the planned shape, and the harness finds the same or, for a grouped
      projection, nothing it can shape. */
  lemma {:induction false} PlannedArray(f: F32, c: Config, src: Source, i: nat)
    requires Sourced(c, src) && i < |SourcePlan(c)|
    ensures var item, file := SourcePlan(c)[i], InFile(f, c, src)[i];
            && item.target == Names(c)[i] && file.shape == NamePlan(c)[i].shape == item.targetShape
            && |file.values| == Product(file.shape)
            && SourceArray(f, src, Ungrouped(item)) == Ok(InSource(f, c, src)[i])
            && Ungrouped(item).target == item.target
            && (item.gqaExpand ==> SourceArray(f, src, item).Err?)
            && (!item.gqaExpand ==> SourceArray(f, src, item) == Ok(file) && InSource(f, c, src)[i] == file)
  {
    var item := SourcePlan(c)[i];
    PlansAgree(c, i);
    PlanFlagged(c, i);
    assert LoadItem(src, item).Ok?;
    assert Names(c)[i] == NamePlan(c)[i].name;
    hide SourcePlan;
    hide NamePlan;
    hide Convertible;
    hide Accepted;
    hide WellSized;
    hide LoadItem;
    hide SourceArray;
    hide FileArray;
    hide Product;
    ShapeKept(f, c, src, item);
    if item.gqaExpand {
      assert Expanding(c, src, item);
      ExpandedInFile(f, c, src, item);
      GroupedInSource(f, c, src, item);
    } else {
      PlainArray(f, c, src, item);
      assert Ungrouped(item) == item;
    }
  }

  lemma {:induction false} ShapeKept(f: F32, c: Config, src: Source, item: SourceItem)
    requires WellSized(src)
    ensures FileArray(f, c, src, item).shape == item.targetShape && Ungrouped(item).target == item.target
  {
    hide Arrange;
    hide LoadItem;
  }

  /** The model left ungrouped always loads. */
  lemma {:induction false} SourceLoads(f: F32, c: Config, src: Source)
    requires Sourced(c, src)
    ensures SourceArrays(f, src, UngroupedAll(SourcePlan(c))) == Ok(Dictionary(Names(c), InSource(f, c, src)))
  {
    assert c.nHeads != 0;
    hide *;
    var items := UngroupedAll(SourcePlan(c));
    forall i | 0 <= i < |items|
      ensures items[i].target == Names(c)[i] && SourceArray(f, src, items[i]) == Ok(InSource(f, c, src)[i])
    {
      UngroupedAt(SourcePlan(c), i);
      PlannedArray(f, c, src, i);
    }
    SourceDictionary(f, src, items, Names(c), InSource(f, c, src));
  }

  lemma {:induction false} UngroupedAt(items: seq<SourceItem>, i: nat)
    requires i < |items|
    ensures UngroupedAll(items)[i] == Ungrouped(items[i])
  {
    hide Ungrouped;
  }

  /** The harness's own loader, which shapes every tensor as the file does without expanding it, loads an accepted
      model exactly when every query head has its own key/value head; then it finds the arrays of the file. */
  lemma {:induction false} SourceLoadsIff(f: F32, c: Config, src: Source)
    requires Sourced(c, src)
    ensures SourceArrays(f, src, SourcePlan(c)).Ok? <==> c.nKvHeads == c.nHeads
    ensures c.nKvHeads == c.nHeads ==> SourceArrays(f, src, SourcePlan(c)) == Ok(Dictionary(Names(c), InFile(f, c, src)))
  {
    assert c.nHeads != 0 && WellSized(src);
    if c.nKvHeads == c.nHeads {
      hide Names;
      hide SourcePlan;
      hide Sourced;
      hide InFile;
      hide InSource;
      hide SourceArray;
      hide NamePlan;
      var items := SourcePlan(c);
      forall i | 0 <= i < |items|
        ensures items[i].target == Names(c)[i] && SourceArray(f, src, items[i]) == Ok(InFile(f, c, src)[i])
      {
        PlannedArray(f, c, src, i);
        PlanFlagged(c, i);
      }
      SourceDictionary(f, src, items, Names(c), InFile(f, c, src));
    } else {
      LayersExist(c);
      LayerPlace(c, 0, 2);
      LayerFlagged(c, 0, 2);
      PlannedArray(f, c, src, 3);
      hide *;
      SourceFails(f, src, SourcePlan(c), 3);
    }
  }

  lemma {:induction false} LayersExist(c: Config)
    requires Accepted(c)
    ensures LayerCount(c) == c.nLayers > 0
  {
    AcceptedIff(c);
  }

  // ------------------------------------------------------------------ the file

  /** A tensor that reads back enters the dictionary with the array the plan gives it. */
  lemma {:induction false} TensorEnters(f: F32, c: Config, src: Source, item: SourceItem, m: Reader.ModelTensor)
    requires WellSized(src) && ConvertItem(f, c, src, item).Ok? && RoundTrip.ReadsBackAs(ConvertItem(f, c, src, item).value, m)
    ensures Enters(f, m, item.target, FileArray(f, c, src, item))
  {
    var values := LoadItem(src, item).value;
    Fetched(src, item);
    var arranged := Arrange(c, item, values).value;
    FileArrayIs(f, c, src, item);
    hide LoadItem;
    hide Arrange;
    hide FileArray;
    hide WellSized;
    var t := ConvertItem(f, c, src, item).value;
    assert t == Tensor(item.target, item.targetShape, DTYPE_F32, F32Bytes(f, arranged), 0);
    assert m.shape == item.targetShape;
    F32RoundTrip(f, arranged, []);
    assert m.raw + [] == m.raw;
    hide Product;
    hide ReadF32s;
    hide StoredAll;
    hide F32Bytes;
  }

  /** The weights read from a built f32 file. */
  lemma {:induction false} FileLoads(f: F32, c: Config, src: Source, meta: bool, file: seq<Byte>)
    requires Sourced(c, src) && Planned(f, c, src, FormatF32).Ok?
    requires Writer.Build(c, Planned(f, c, src, FormatF32).value, meta) == Writer.Built(file)
    ensures Reader.Parse(file).Ok?
    ensures FileArrays(f, Reader.Parse(file).value.tensors) == Ok(Dictionary(Names(c), InFile(f, c, src)))
  {
    assert Accepted(c) && c.nHeads != 0;
    assert WellSized(src);
    End.PlannedIs(f, c, src, FormatF32);
    var ts := ConvertAll(f, c, src, SourcePlan(c)).value;
    AsPlanned(f, ts);
    hide *;
    RoundTrip.FileRoundTrip(c, ts, meta);
    TensorsBack(c, ts, Reader.Parse(file));
    var ms := Reader.Parse(file).value.tensors;
    forall i | 0 <= i < |ms|
      ensures Enters(f, ms[i], Names(c)[i], InFile(f, c, src)[i])
    {
      ConvertedAt(f, c, src, SourcePlan(c), i);
      TensorEnters(f, c, src, SourcePlan(c)[i], ms[i]);
      PlannedArray(f, c, src, i);
      InFileAt(f, c, src, i);
    }
    FileDictionary(f, ms, Names(c), InFile(f, c, src));
  }

  lemma {:induction false} InFileAt(f: F32, c: Config, src: Source, i: nat)
    requires c.nHeads != 0 && WellSized(src) && i < |SourcePlan(c)|
    ensures InFile(f, c, src)[i] == FileArray(f, c, src, SourcePlan(c)[i])
  {
    hide FileArray;
    hide SourcePlan;
  }

  lemma {:induction false} AsPlanned(f: F32, ts: seq<Tensor>)
    requires forall i :: 0 <= i < |ts| ==> F32Sized(ts[i])
    ensures QuantizeAll(f, FormatF32, ts) == ts
  {
    hide F32Sized;
  }

  lemma {:induction false} TensorsBack(c: Config, ts: seq<Tensor>, r: Result<Reader.Model>)
    requires RoundTrip.FileReadsBack(c, ts, r)
    ensures r.Ok? && |r.value.tensors| == |ts|
    ensures forall i :: 0 <= i < |ts| ==> RoundTrip.ReadsBackAs(ts[i], r.value.tensors[i])
  {
    hide RoundTrip.ReadsBackAs;
  }

  // -------------------------------------------------------------- the two models

  lemma {:induction false} Looked(c: Config, arrays: seq<Array>, i: nat)
    requires c.nHeads != 0 && |arrays| == |Names(c)| && i < |Names(c)|
    ensures Names(c)[i] in Dictionary(Names(c), arrays) && Dictionary(Names(c), arrays)[Names(c)[i]] == arrays[i]
    ensures VectorIn(Dictionary(Names(c), arrays), Names(c)[i]) == arrays[i].values
    ensures |arrays[i].shape| == 2 && arrays[i].shape[0] >= 0 && arrays[i].shape[1] >= 0 ==>
              MatrixIn(Dictionary(Names(c), arrays), Names(c)[i]) == LA.Matrix(arrays[i].shape[0], arrays[i].shape[1], arrays[i].values)
  {
    NamesDistinct(c);
    EntryAt(Names(c), arrays, i);
    hide Dictionary;
    hide Names;
  }

  /** The weights of the source as stored, under their names; its key/value projections keep their width. */
  function SourceWeights(f: F32, c: Config, src: Source): Arrays
    requires c.nHeads != 0
  {
    Dictionary(Names(c), InSource(f, c, src))
  }

  function FileWeights(f: F32, c: Config, src: Source): Arrays
    requires c.nHeads != 0 && WellSized(src)
  {
    Dictionary(Names(c), InFile(f, c, src))
  }

  /** A vector of the plan, the same in both. */
  ghost predicate SameVector(a: Arrays, b: Arrays, name: string, n: int) {
    VectorIn(a, name) == VectorIn(b, name) && |VectorIn(b, name)| == n
  }

  ghost predicate SameMatrix(a: Arrays, b: Arrays, name: string, rows: int, cols: int) {
    MatrixIn(a, name) == MatrixIn(b, name) && rows >= 0 && cols >= 0 && MatrixIn(b, name).Fits(rows, cols)
  }

  lemma {:induction false} PlainEntry(f: F32, c: Config, src: Source, i: nat)
    requires Sourced(c, src) && i < |SourcePlan(c)| && !SourcePlan(c)[i].gqaExpand
    ensures c.nHeads != 0 && |NamePlan(c)| == |SourcePlan(c)|
    ensures var s := NamePlan(c)[i].shape;
            && (|s| == 1 ==> SameVector(FileWeights(f, c, src), SourceWeights(f, c, src), Names(c)[i], s[0]))
            && (|s| == 2 && s[0] >= 0 && s[1] >= 0 ==>
                  SameMatrix(FileWeights(f, c, src), SourceWeights(f, c, src), Names(c)[i], s[0], s[1]))
  {
    assert c.nHeads != 0;
    assert WellSized(src);
    var s := NamePlan(c)[i].shape;
    if |s| == 1 {
      ProductOfOne(s);
    } else if |s| == 2 {
      ProductOfTwo(s);
    }
    hide Names;
    hide SourcePlan;
    hide NamePlan;
    hide Sourced;
    hide InFile;
    hide InSource;
    hide Dictionary;
    hide VectorIn;
    hide MatrixIn;
    hide Product;
    hide SourceArray;
    PlannedArray(f, c, src, i);
    Looked(c, InFile(f, c, src), i);
    Looked(c, InSource(f, c, src), i);
  }

  /** The values of a projection as the source holds them, stored. */
  function StoredSource(f: F32, src: Source, item: SourceItem): seq<real> {
    match LoadItem(src, item)
    case Ok(values) => StoredAll(f, values)
    case Err(_) => []
  }

  function KvWidth(c: Config): int
    requires c.nHeads != 0
  {
    c.nKvHeads * FloorDiv(c.dModel, c.nHeads)
  }

  /** A key or value projection: transposed on one side, expanded on the other. */
  ghost predicate KvPair(c: Config, name: string, stored: seq<real>, file: Arrays, source: Arrays)
    requires c.nHeads != 0
  {
    var d, kv := c.dModel, KvWidth(c);
    && d >= 0 && kv >= 0 && |stored| == kv * d
    && MatrixIn(source, name) == LA.Matrix(d, kv, Layout.Transpose(stored, kv, d))
    && MatrixIn(file, name).Fits(d, d)
    && Layout.ExpandGqa(stored, kv, d, c.nHeads, c.nKvHeads) == Ok(MatrixIn(file, name).data)
  }

  lemma {:induction false} KvItem(c: Config, l: nat, k: nat)
    requires Accepted(c) && (k == 2 || k == 3)
    ensures c.nHeads != 0 && |LayerItems(c, l)| == 9
    ensures var item, d, kv := LayerItems(c, l)[k], c.dModel, KvWidth(c);
            && d > 0 && kv > 0 && item.sourceShape == [kv, d] && item.targetShape == [d, d] && item.transpose
            && (item.gqaExpand <==> c.nKvHeads != c.nHeads) && (c.nKvHeads == c.nHeads ==> kv == d)
  {
    HeadsDivide(c);
    hide Accepted;
    hide FloorDiv;
    hide LayerName;
    hide SourceName;
  }

  lemma {:induction false} KvArrays(f: F32, c: Config, src: Source, l: nat, k: nat)
    requires Sourced(c, src) && l < LayerCount(c) && (k == 2 || k == 3)
    ensures c.nHeads != 0 && |LayerItems(c, l)| == 9 && 1 + 9 * l + k < |SourcePlan(c)|
    ensures var i, d, kv, stored := 1 + 9 * l + k, c.dModel, KvWidth(c), StoredSource(f, src, LayerItems(c, l)[k]);
            && d > 0 && kv > 0 && |stored| == kv * d
            && InSource(f, c, src)[i] == Array([d, kv], Layout.Transpose(stored, kv, d))
            && InFile(f, c, src)[i].shape == [d, d] && |InFile(f, c, src)[i].values| == d * d
            && Layout.ExpandGqa(stored, kv, d, c.nHeads, c.nKvHeads) == Ok(InFile(f, c, src)[i].values)
  {
    LayerPlace(c, l, k);
    KvItem(c, l, k);
    var i, item, d, kv := 1 + 9 * l + k, LayerItems(c, l)[k], c.dModel, KvWidth(c);
    assert LoadItem(src, item).Ok? && Accepted(c) && WellSized(src);
    PlansAgree(c, i);
    PlanFlagged(c, i);
    ProductOfTwo([d, d]);
    ProductOfTwo([kv, d]);
    Fetched(src, item);
    assert StoredSource(f, src, item) == StoredAll(f, LoadItem(src, item).value);
    InFileAt(f, c, src, i);
    PlannedArray(f, c, src, i);
    if item.gqaExpand {
      assert Expanding(c, src, item);
      hide *;
      ExpandedInFile(f, c, src, item);
      GroupedInSource(f, c, src, item);
    } else {
      hide *;
      UnexpandedInFile(f, c, src, item, kv, d);
    }
  }

  lemma {:induction false} UnexpandedInFile(f: F32, c: Config, src: Source, item: SourceItem, kv: nat, d: nat)
    requires WellSized(src) && LoadItem(src, item).Ok? && item.transpose && !item.gqaExpand && c.nKvHeads == c.nHeads
    requires item.sourceShape == [kv, d] && |LoadItem(src, item).value| == Product(item.sourceShape) == kv * d
    ensures var stored := StoredAll(f, LoadItem(src, item).value);
            && FileArray(f, c, src, item) == Array(item.targetShape, Layout.Transpose(stored, kv, d))
            && Layout.ExpandGqa(stored, kv, d, c.nHeads, c.nKvHeads) == Ok(Layout.Transpose(stored, kv, d))
  {
    var values := LoadItem(src, item).value;
    assert Arrange(c, item, values) == Ok(Layout.Transpose(values, kv, d));
    FileArrayIs(f, c, src, item);
    StoredTranspose(f, values, kv, d);
  }

  lemma {:induction false} KvEntry(f: F32, c: Config, src: Source, l: nat, k: nat)
    requires Sourced(c, src) && l < LayerCount(c) && (k == 2 || k == 3)
    ensures c.nHeads != 0 && WellSized(src) && |LayerItems(c, l)| == 9
    ensures KvPair(c, LayerName(l, Suffix(k)), StoredSource(f, src, LayerItems(c, l)[k]), FileWeights(f, c, src), SourceWeights(f, c, src))
  {
    assert c.nHeads != 0 && WellSized(src);
    var i := 1 + 9 * l + k;
    hide Names;
    hide Sourced;
    hide InFile;
    hide InSource;
    hide Dictionary;
    hide VectorIn;
    hide MatrixIn;
    hide SourcePlan;
    hide NamePlan;
    hide LayerItems;
    hide LayerName;
    hide Suffix;
    hide StoredSource;
    hide KvWidth;
    hide Layout.Transpose;
    hide Layout.ExpandGqa;
    LayerPlace(c, l, k);
    KvArrays(f, c, src, l, k);
    Looked(c, InFile(f, c, src), i);
    Looked(c, InSource(f, c, src), i);
  }

  lemma {:induction false} LayerEntry(f: F32, c: Config, src: Source, l: nat, k: nat)
    requires Sourced(c, src) && l < LayerCount(c) && k < 9 && k != 2 && k != 3
    ensures c.nHeads != 0 && WellSized(src)
    ensures var s, name := LayerEntries(c, l)[k].shape, LayerName(l, Suffix(k));
            && (|s| == 1 ==> SameVector(FileWeights(f, c, src), SourceWeights(f, c, src), name, s[0]))
            && (|s| == 2 && s[0] >= 0 && s[1] >= 0 ==> SameMatrix(FileWeights(f, c, src), SourceWeights(f, c, src), name, s[0], s[1]))
  {
    assert c.nHeads != 0 && WellSized(src);
    hide *;
    LayerPlace(c, l, k);
    LayerFlagged(c, l, k);
    PlainEntry(f, c, src, 1 + 9 * l + k);
  }

  /** One layer of the file and of the source. */
  ghost predicate LayerPair(c: Config, l: nat, kv: Gqa.KvSource, file: Arrays, source: Arrays)
    requires c.nHeads != 0
  {
    var d, ff := c.dModel, c.dFf;
    && SameVector(file, source, LayerName(l, Suffix(0)), d) && SameVector(file, source, LayerName(l, Suffix(5)), d)
    && SameMatrix(file, source, LayerName(l, Suffix(1)), d, d) && SameMatrix(file, source, LayerName(l, Suffix(4)), d, d)
    && KvPair(c, LayerName(l, Suffix(2)), kv.k, file, source) && KvPair(c, LayerName(l, Suffix(3)), kv.v, file, source)
    && SameMatrix(file, source, LayerName(l, Suffix(6)), d, ff) && SameMatrix(file, source, LayerName(l, Suffix(7)), d, ff)
    && SameMatrix(file, source, LayerName(l, Suffix(8)), ff, d)
  }

  function KvSourceAt(f: F32, c: Config, src: Source, l: nat): Gqa.KvSource
    requires c.nHeads != 0
  {
    NineItems(c, l);
    Gqa.KvSource(StoredSource(f, src, LayerItems(c, l)[2]), StoredSource(f, src, LayerItems(c, l)[3]))
  }

  lemma {:induction false} LayersPair(f: F32, c: Config, src: Source, l: nat)
    requires Sourced(c, src) && l < LayerCount(c)
    ensures c.nHeads != 0 && WellSized(src)
    ensures LayerPair(c, l, KvSourceAt(f, c, src, l), FileWeights(f, c, src), SourceWeights(f, c, src))
  {
    assert c.nHeads != 0 && WellSized(src);
    AcceptedIff(c);
    hide Accepted;
    hide Sourced;
    hide WellSized;
    hide FileWeights;
    hide SourceWeights;
    hide SameVector;
    hide SameMatrix;
    hide KvPair;
    hide Suffix;
    hide LayerName;
    hide LayerItems;
    hide StoredSource;
    LayerEntry(f, c, src, l, 0);
    LayerEntry(f, c, src, l, 1);
    KvEntry(f, c, src, l, 2);
    KvEntry(f, c, src, l, 3);
    LayerEntry(f, c, src, l, 4);
    LayerEntry(f, c, src, l, 5);
    LayerEntry(f, c, src, l, 6);
    LayerEntry(f, c, src, l, 7);
    LayerEntry(f, c, src, l, 8);
  }

  ghost predicate OuterPair(c: Config, file: Arrays, source: Arrays) {
    && SameMatrix(file, source, "tok_embeddings.weight", c.vocabSize, c.dModel)
    && SameVector(file, source, "output_norm.weight", c.dModel)
    && SameMatrix(file, source, "output.weight", c.dModel, c.vocabSize)
  }

  lemma {:induction false} OutersPair(f: F32, c: Config, src: Source)
    requires Sourced(c, src)
    ensures c.nHeads != 0 && WellSized(src) && OuterPair(c, FileWeights(f, c, src), SourceWeights(f, c, src))
  {
    assert c.nHeads != 0 && WellSized(src);
    AcceptedIff(c);
    var n := 9 * LayerCount(c);
    OuterNames(c);
    OuterEntries(c);
    hide *;
    PlainEntry(f, c, src, 0);
    PlainEntry(f, c, src, n + 1);
    PlainEntry(f, c, src, n + 2);
    assert OuterPair(c, FileWeights(f, c, src), SourceWeights(f, c, src)) by {
      OuterPairIs(c, FileWeights(f, c, src), SourceWeights(f, c, src));
    }
  }

  lemma {:induction false} OuterPairIs(c: Config, file: Arrays, source: Arrays)
    requires SameMatrix(file, source, "tok_embeddings.weight", c.vocabSize, c.dModel)
    requires SameVector(file, source, "output_norm.weight", c.dModel)
    requires SameMatrix(file, source, "output.weight", c.dModel, c.vocabSize)
    ensures OuterPair(c, file, source)
  {
    hide SameMatrix;
    hide SameVector;
  }

  lemma {:induction false} OuterEntries(c: Config)
    requires c.nHeads != 0
    ensures var n := 9 * LayerCount(c);
            && |NamePlan(c)| == |SourcePlan(c)| == n + 3
            && NamePlan(c)[0].shape == [c.vocabSize, c.dModel] && !SourcePlan(c)[0].gqaExpand
            && NamePlan(c)[n + 1].shape == [c.dModel] && !SourcePlan(c)[n + 1].gqaExpand
            && NamePlan(c)[n + 2].shape == [c.dModel, c.vocabSize] && !SourcePlan(c)[n + 2].gqaExpand
  {
    hide EntriesUpTo;
    hide ItemsUpTo;
  }

  /** The model in the file has one key/value head per query head, since the file does not say how many there were. */
  function FileModel(f: F32, maths: LA.Maths, c: Config, theta: real, src: Source): FP.Model
    requires c.nHeads != 0 && WellSized(src)
  {
    ModelIn(maths, c, c.nHeads, theta, FileWeights(f, c, src))
  }

  function LoadedModel(f: F32, maths: LA.Maths, c: Config, theta: real, src: Source): FP.Model
    requires c.nHeads != 0
  {
    ModelIn(maths, c, c.nKvHeads, theta, SourceWeights(f, c, src))
  }

  /** A source vector, stored. */
  function StoredVector(f: F32, src: Source, name: string): seq<real> {
    StoredAll(f, Values(src, name))
  }

  /** A source matrix, stored, in the layout of `x @ w`. */
  function StoredMatrix(f: F32, src: Source, name: string, rows: int, cols: int): LA.Matrix {
    var v := StoredAll(f, Values(src, name));
    if rows >= 0 && cols >= 0 && |v| == rows * cols then LA.Matrix(cols, rows, Layout.Transpose(v, rows, cols)) else LA.Matrix(0, 0, [])
  }

  /** Layer l of the source model, by the names of the source file. */
  function SourceLayer(f: F32, c: Config, src: Source, l: nat): FP.Layer
    requires c.nHeads != 0
  {
    var d, ff, kv := c.dModel, c.dFf, KvRows(c);
    FP.Layer(StoredVector(f, src, SourceOf(l, ".input_layernorm.weight")),
             StoredMatrix(f, src, SourceOf(l, ".self_attn.q_proj.weight"), d, d),
             StoredMatrix(f, src, SourceOf(l, ".self_attn.k_proj.weight"), kv, d),
             StoredMatrix(f, src, SourceOf(l, ".self_attn.v_proj.weight"), kv, d),
             StoredMatrix(f, src, SourceOf(l, ".self_attn.o_proj.weight"), d, d),
             StoredVector(f, src, SourceOf(l, ".post_attention_layernorm.weight")),
             StoredMatrix(f, src, SourceOf(l, ".mlp.gate_proj.weight"), ff, d),
             StoredMatrix(f, src, SourceOf(l, ".mlp.up_proj.weight"), ff, d),
             StoredMatrix(f, src, SourceOf(l, ".mlp.down_proj.weight"), d, ff))
  }

  /** The source model, by the names of the source file; a missing lm_head is tied to the embedding. */
  function SourceModel(f: F32, maths: LA.Maths, c: Config, theta: real, src: Source): FP.Model
    requires c.nHeads != 0
  {
    FP.Model(maths, ConfigWith(c, c.nKvHeads, theta),
             FP.Weights(LA.Matrix(Natural(c.vocabSize), Natural(c.dModel), StoredVector(f, src, "model.embed_tokens.weight")),
                        seq(LayerCount(c), l requires 0 <= l < LayerCount(c) => SourceLayer(f, c, src, l)),
                        StoredVector(f, src, "model.norm.weight"),
                        StoredMatrix(f, src, HeadName(src), c.vocabSize, c.dModel)))
  }

  /** What the harness enters for an item, its projections at their own width. */
  lemma {:induction false} VectorArray(f: F32, src: Source, item: SourceItem, name: string)
    requires Fetch(src, item) == Ok(Values(src, name)) && |Values(src, name)| == Product(item.sourceShape)
    requires !item.transpose && !item.gqaExpand && item.targetShape == item.sourceShape
    ensures SourceArray(f, src, Ungrouped(item)) == Ok(Array(item.sourceShape, StoredVector(f, src, name)))
  {
    hide Fetch;
    hide Product;
    hide Values;
  }

  lemma {:induction false} TurnedArray(f: F32, src: Source, item: SourceItem, name: string, rows: nat, cols: nat)
    requires Fetch(src, item) == Ok(Values(src, name)) && |Values(src, name)| == Product(item.sourceShape)
    requires item.transpose && item.sourceShape == [rows, cols] && (item.gqaExpand || item.targetShape == [cols, rows])
    ensures StoredMatrix(f, src, name, rows, cols).Fits(cols, rows)
    ensures SourceArray(f, src, Ungrouped(item)) == Ok(Array([cols, rows], StoredMatrix(f, src, name, rows, cols).data))
  {
    var values, ungrouped := Values(src, name), Ungrouped(item);
    assert Fetch(src, ungrouped) == Fetch(src, item);
    TakeAll(values);
    ProductOfTwo(item.sourceShape);
    ProductOfTwo([cols, rows]);
    assert |values| == rows * cols == cols * rows;
    StoredTranspose(f, values, rows, cols);
    hide Fetch;
    hide Product;
    hide Layout.Transpose;
    hide Values;
    hide StoredAll;
  }

  function KvSources(f: F32, c: Config, src: Source): (s: seq<Gqa.KvSource>)
    requires c.nHeads != 0
    ensures |s| == LayerCount(c)
  {
    seq(LayerCount(c), l requires 0 <= l < LayerCount(c) => KvSourceAt(f, c, src, l))
  }

  lemma {:induction false} InSourceAt(f: F32, c: Config, src: Source, i: nat)
    requires c.nHeads != 0 && i < |SourcePlan(c)|
    ensures InSource(f, c, src)[i] == Got(SourceArray(f, src, Ungrouped(SourcePlan(c)[i])))
  {
    hide SourceArray;
    hide SourcePlan;
    hide Ungrouped;
    hide Got;
  }

  lemma {:induction false} SourcedMeans(c: Config, src: Source)
    requires Sourced(c, src)
    ensures c.nHeads != 0 && WellSized(src) && Accepted(c) && Loadable(src, SourcePlan(c))
  {
    hide WellSized;
    hide Loadable;
    hide SourcePlan;
  }

  /** The array made for tensor k of layer l. */
  lemma {:induction false} LayerArray(f: F32, c: Config, src: Source, l: nat, k: nat)
    requires Sourced(c, src) && l < LayerCount(c) && k < 9
    ensures c.nHeads != 0 && 1 + 9 * l + k < |InSource(f, c, src)|
    ensures var a, from, s := InSource(f, c, src)[1 + 9 * l + k], SourceOf(l, SourceSuffix(k)), SourceShape(c, k);
            if k == 0 || k == 5 then a.values == StoredVector(f, src, from)
            else && |s| == 2 && s[0] >= 0 && s[1] >= 0 && a.shape == [s[1], s[0]]
                 && LA.Matrix(s[1], s[0], a.values) == StoredMatrix(f, src, from, s[0], s[1])
  {
    hide *;
    SourcedMeans(c, src);
    ItemPlace(c, l, k);
    var i, item, from := 1 + 9 * l + k, LayerItems(c, l)[k], SourceOf(l, SourceSuffix(k));
    ItemLoads(src, SourcePlan(c), i);
    ShapeOf(c, k);
    Fetched(src, item);
    LayerItemLoads(c, src, l, k);
    LayerItemIs(c, l, k);
    InSourceAt(f, c, src, i);
    EntryHolds(f, c, src, item, from, k, InSource(f, c, src)[i]);
  }

  /** Tensor k of layer l in the dictionary of the source. */
  lemma {:induction false} SourceEntry(f: F32, c: Config, src: Source, l: nat, k: nat)
    requires Sourced(c, src) && l < LayerCount(c) && k < 9
    ensures c.nHeads != 0
    ensures var w, name, from, s := SourceWeights(f, c, src), LayerName(l, Suffix(k)), SourceOf(l, SourceSuffix(k)), SourceShape(c, k);
            if k == 0 || k == 5 then VectorIn(w, name) == StoredVector(f, src, from)
            else |s| == 2 && MatrixIn(w, name) == StoredMatrix(f, src, from, s[0], s[1])
  {
    hide *;
    SourceWeightsAre(f, c, src);
    LayerArray(f, c, src, l, k);
    LayerPlace(c, l, k);
    Looked(c, InSource(f, c, src), 1 + 9 * l + k);
  }

  lemma {:induction false} SourceWeightsAre(f: F32, c: Config, src: Source)
    requires Sourced(c, src)
    ensures c.nHeads != 0 && SourceWeights(f, c, src) == Dictionary(Names(c), InSource(f, c, src))
  {
    hide InSource;
    hide Names;
    hide Dictionary;
  }

  lemma {:induction false} ShapeOf(c: Config, k: nat)
    requires Accepted(c) && k < 9
    ensures c.nHeads != 0
    ensures var s, t := SourceShape(c, k), TargetShape(c, k);
            if k == 0 || k == 5 then t == s
            else |s| == 2 && s[0] >= 0 && s[1] >= 0 && (k != 2 && k != 3 ==> t == [s[1], s[0]]) && (c.nKvHeads == c.nHeads ==> t == [s[1], s[0]])
  {
    KvRowsAre(c);
    hide Accepted;
    hide KvRows;
  }

  lemma {:induction false} EntryHolds(f: F32, c: Config, src: Source, item: SourceItem, from: string, k: nat, a: Array)
    requires c.nHeads != 0 && k < 9 && item.sourceShape == SourceShape(c, k) && item.targetShape == TargetShape(c, k)
    requires Fetch(src, item) == Ok(Values(src, from)) && |Values(src, from)| == Product(item.sourceShape)
    requires (item.gqaExpand <==> (k == 2 || k == 3) && c.nKvHeads != c.nHeads) && (item.transpose <==> k != 0 && k != 5)
    requires var s, t := SourceShape(c, k), TargetShape(c, k);
             if k == 0 || k == 5 then t == s
             else |s| == 2 && s[0] >= 0 && s[1] >= 0 && (k != 2 && k != 3 ==> t == [s[1], s[0]]) && (c.nKvHeads == c.nHeads ==> t == [s[1], s[0]])
    requires a == Got(SourceArray(f, src, Ungrouped(item)))
    ensures var s := SourceShape(c, k);
            if k == 0 || k == 5 then a.values == StoredVector(f, src, from)
            else && a.shape == [s[1], s[0]]
                 && LA.Matrix(s[1], s[0], a.values) == StoredMatrix(f, src, from, s[0], s[1])
  {
    var s := SourceShape(c, k);
    hide SourceShape;
    hide TargetShape;
    hide SourceArray;
    hide StoredVector;
    hide StoredMatrix;
    hide Fetch;
    hide Product;
    if k == 0 || k == 5 {
      VectorArray(f, src, item, from);
    } else {
      assert item.sourceShape == [s[0], s[1]];
      TurnedArray(f, src, item, from, s[0], s[1]);
    }
  }

  lemma {:induction false} LoadedLayerIs(f: F32, c: Config, src: Source, l: nat)
    requires Sourced(c, src) && l < LayerCount(c)
    ensures c.nHeads != 0 && LayerIn(SourceWeights(f, c, src), l) == SourceLayer(f, c, src, l)
  {
    assert c.nHeads != 0;
    hide Sourced;
    hide SourceWeights;
    hide VectorIn;
    hide MatrixIn;
    hide StoredVector;
    hide StoredMatrix;
    hide LayerName;
    hide Suffix;
    hide SourceOf;
    hide KvRows;
    SourceEntry(f, c, src, l, 0);
    SourceEntry(f, c, src, l, 1);
    SourceEntry(f, c, src, l, 2);
    SourceEntry(f, c, src, l, 3);
    SourceEntry(f, c, src, l, 4);
    SourceEntry(f, c, src, l, 5);
    SourceEntry(f, c, src, l, 6);
    SourceEntry(f, c, src, l, 7);
    SourceEntry(f, c, src, l, 8);
  }

  lemma {:induction false} OuterArrays(f: F32, c: Config, src: Source)
    requires Sourced(c, src)
    ensures c.nHeads != 0 && c.nLayers > 0 && |InSource(f, c, src)| == 9 * c.nLayers + 3 && c.vocabSize > 0 && c.dModel > 0
    ensures var a, v, d, n := InSource(f, c, src), c.vocabSize, c.dModel, 9 * c.nLayers;
            && a[0] == Array([v, d], StoredVector(f, src, "model.embed_tokens.weight"))
            && a[n + 1].values == StoredVector(f, src, "model.norm.weight")
            && a[n + 2].shape == [d, v] && LA.Matrix(d, v, a[n + 2].values) == StoredMatrix(f, src, HeadName(src), v, d)
  {
    hide *;
    SourcedMeans(c, src);
    KvRowsAre(c);
    OuterSources(c);
    var p, n, v, d := SourcePlan(c), 9 * c.nLayers, c.vocabSize, c.dModel;
    ItemLoads(src, p, 0);
    ItemLoads(src, p, n + 1);
    ItemLoads(src, p, n + 2);
    LoadsIff(c, src, p[0]);
    LoadsIff(c, src, p[n + 1]);
    HeadLoadsIff(c, src, p[n + 2]);
    Fetched(src, p[0]);
    Fetched(src, p[n + 1]);
    Fetched(src, p[n + 2]);
    VectorArray(f, src, p[0], "model.embed_tokens.weight");
    VectorArray(f, src, p[n + 1], "model.norm.weight");
    TurnedArray(f, src, p[n + 2], HeadName(src), v, d);
    InSourceAt(f, c, src, 0);
    InSourceAt(f, c, src, n + 1);
    InSourceAt(f, c, src, n + 2);
    GotOk(SourceArray(f, src, Ungrouped(p[0])));
    GotOk(SourceArray(f, src, Ungrouped(p[n + 1])));
    GotOk(SourceArray(f, src, Ungrouped(p[n + 2])));
    FitsIs(StoredMatrix(f, src, HeadName(src), v, d), d, v);
  }

  lemma {:induction false} NaturalIs(i: int)
    requires i >= 0
    ensures Natural(i) == i
  {
  }

  lemma {:induction false} GotOk(r: Result<Array>)
    requires r.Ok?
    ensures Got(r) == r.value
  {
  }

  lemma {:induction false} FitsIs(w: LA.Matrix, rows: nat, cols: nat)
    requires w.Fits(rows, cols)
    ensures w == LA.Matrix(rows, cols, w.data)
  {
  }

  lemma {:induction false} OuterEntriesAre(f: F32, c: Config, src: Source)
    requires Sourced(c, src)
    ensures c.nHeads != 0
    ensures var w := SourceWeights(f, c, src);
            && MatrixIn(w, "tok_embeddings.weight")
               == LA.Matrix(Natural(c.vocabSize), Natural(c.dModel), StoredVector(f, src, "model.embed_tokens.weight"))
            && VectorIn(w, "output_norm.weight") == StoredVector(f, src, "model.norm.weight")
            && MatrixIn(w, "output.weight") == StoredMatrix(f, src, HeadName(src), c.vocabSize, c.dModel)
  {
    hide *;
    SourcedMeans(c, src);
    KvRowsAre(c);
    SourceWeightsAre(f, c, src);
    OuterArrays(f, c, src);
    OuterNames(c);
    NaturalIs(c.vocabSize);
    NaturalIs(c.dModel);
    var n := 9 * c.nLayers;
    Looked(c, InSource(f, c, src), 0);
    Looked(c, InSource(f, c, src), n + 1);
    Looked(c, InSource(f, c, src), n + 2);
  }

  /** What the dictionary of the source describes is the source model. */
  lemma {:induction false} LoadedIsSource(f: F32, maths: LA.Maths, c: Config, theta: real, src: Source)
    requires Sourced(c, src)
    ensures c.nHeads != 0 && LoadedModel(f, maths, c, theta, src) == SourceModel(f, maths, c, theta, src)
  {
    hide Sourced;
    hide Accepted;
    hide SourceWeights;
    hide ConfigWith;
    hide LayerIn;
    SourcedMeans(c, src);
    hide SourceLayer;
    hide StoredVector;
    hide StoredMatrix;
    hide MatrixIn;
    hide VectorIn;
    OuterEntriesAre(f, c, src);
    forall l | 0 <= l < LayerCount(c)
      ensures LayerIn(SourceWeights(f, c, src), l) == SourceLayer(f, c, src, l)
    {
      LoadedLayerIs(f, c, src, l);
    }
  }

  lemma {:induction false} ConfigHolds(c: Config, theta: real, md: FP.Model)
    requires Accepted(c) && md.cfg == ConfigWith(c, c.nKvHeads, theta)
    ensures md.GroupsSupported() && md.Divides() && md.KvDim() == KvWidth(c)
    ensures md.cfg.dModel == c.dModel > 0 && md.cfg.dFf == c.dFf && md.cfg.vocabSize == c.vocabSize && md.cfg.nHeads == c.nHeads
  {
    HeadsDivide(c);
    hide Accepted;
    hide FloorDiv;
  }

  /** One layer of the source model has the shapes the pass needs. */
  lemma {:induction false} LayerHolds(c: Config, l: nat, kv: Gqa.KvSource, file: Arrays, source: Arrays, theta: real, md: FP.Model)
    requires Accepted(c) && md.cfg == ConfigWith(c, c.nKvHeads, theta) && LayerPair(c, l, kv, file, source)
    ensures md.LayerShaped(LayerIn(source, l))
  {
    ConfigHolds(c, theta, md);
    hide Accepted;
    hide ConfigWith;
    hide VectorIn;
    hide MatrixIn;
    hide Suffix;
    hide LayerName;
    hide KvWidth;
    hide FP.Model.KvDim;
    hide FP.Model.GroupsSupported;
    hide FP.Model.Divides;
    hide Layout.Transpose;
    hide Layout.ExpandGqa;
    hide LA.Matrix.Fits;
    KvShapes(c, LayerName(l, Suffix(2)), kv.k, file, source);
    KvShapes(c, LayerName(l, Suffix(3)), kv.v, file, source);
  }

  lemma {:induction false} KvShapes(c: Config, name: string, stored: seq<real>, file: Arrays, source: Arrays)
    requires c.nHeads != 0 && KvPair(c, name, stored, file, source)
    ensures MatrixIn(source, name).Fits(c.dModel, MatrixIn(source, name).cols)
  {
    hide MatrixIn;
    hide KvWidth;
    hide Layout.ExpandGqa;
    assert c.dModel * KvWidth(c) == KvWidth(c) * c.dModel;
  }

  /** Its projections are transposes, which the file's layer holds expanded; all else is the same. */
  lemma {:induction false} LayerExpanded(c: Config, l: nat, kv: Gqa.KvSource, file: Arrays, source: Arrays, theta: real, md: FP.Model)
    requires Accepted(c) && md.cfg == ConfigWith(c, c.nKvHeads, theta) && LayerPair(c, l, kv, file, source)
    requires md.Usable()
    ensures Gqa.LayerFromSource(md, LayerIn(source, l), kv) && Gqa.LayerExpands(md, LayerIn(source, l), kv, LayerIn(file, l))
  {
    ConfigHolds(c, theta, md);
    hide Accepted;
    hide ConfigWith;
    hide VectorIn;
    hide MatrixIn;
    hide Suffix;
    hide LayerName;
    hide KvWidth;
    hide FP.Model.KvDim;
    hide FP.Model.Usable;
    hide FP.Model.GroupsSupported;
    hide FP.Model.Divides;
    hide Layout.Transpose;
    hide Layout.ExpandGqa;
    hide LA.Matrix.Fits;
    LayerJoins(md, LayerIn(source, l), kv, LayerIn(file, l));
  }

  lemma {:induction false} SourceUsable(f: F32, maths: LA.Maths, c: Config, theta: real, src: Source)
    requires Sourced(c, src)
    ensures c.nHeads != 0 && WellSized(src)
    ensures LoadedModel(f, maths, c, theta, src).Usable() && LoadedModel(f, maths, c, theta, src).Divides()
  {
    assert c.nHeads != 0 && WellSized(src) && Accepted(c);
    hide Accepted;
    hide Sourced;
    hide WellSized;
    var md, file, source := LoadedModel(f, maths, c, theta, src), FileWeights(f, c, src), SourceWeights(f, c, src);
    ConfigHolds(c, theta, md);
    OutersPair(f, c, src);
    hide FileWeights;
    hide SourceWeights;
    hide LayerIn;
    hide VectorIn;
    hide MatrixIn;
    hide LayerPair;
    hide KvSourceAt;
    hide FP.Model.KvDim;
    hide FP.Model.GroupsSupported;
    hide FP.Model.Divides;
    hide FP.Model.LayerShaped;
    forall l | 0 <= l < LayerCount(c)
      ensures md.LayerShaped(md.w.layers[l])
    {
      LayersPair(f, c, src, l);
      LayerHolds(c, l, KvSourceAt(f, c, src, l), file, source, theta, md);
    }
  }

  /** The model in the file is the expansion of the source model. */
  lemma {:induction false} FileExpandsSource(f: F32, maths: LA.Maths, c: Config, theta: real, src: Source)
    requires Sourced(c, src)
    ensures c.nHeads != 0 && WellSized(src)
    ensures Gqa.FromSource(LoadedModel(f, maths, c, theta, src), KvSources(f, c, src))
    ensures Gqa.Expands(LoadedModel(f, maths, c, theta, src), KvSources(f, c, src), FileModel(f, maths, c, theta, src))
  {
    assert c.nHeads != 0 && WellSized(src) && Accepted(c);
    hide Accepted;
    hide Sourced;
    hide WellSized;
    SourceUsable(f, maths, c, theta, src);
    OutersPair(f, c, src);
    var md, md', kvs := LoadedModel(f, maths, c, theta, src), FileModel(f, maths, c, theta, src), KvSources(f, c, src);
    var file, source := FileWeights(f, c, src), SourceWeights(f, c, src);
    hide FileWeights;
    hide SourceWeights;
    hide LayerIn;
    hide VectorIn;
    hide MatrixIn;
    hide LayerPair;
    hide KvSourceAt;
    hide FP.Model.Usable;
    hide FP.Model.Divides;
    hide Gqa.LayerFromSource;
    hide Gqa.LayerExpands;
    forall l | 0 <= l < LayerCount(c)
      ensures Gqa.LayerFromSource(md, md.w.layers[l], kvs[l]) && Gqa.LayerExpands(md, md.w.layers[l], kvs[l], md'.w.layers[l])
    {
      LayersPair(f, c, src, l);
      LayerExpanded(c, l, kvs[l], file, source, theta, md);
    }
  }

  lemma {:induction false} LayerJoins(md: FP.Model, g: FP.Layer, kv: Gqa.KvSource, e: FP.Layer)
    requires md.Usable() && |kv.k| == |kv.v| == md.KvDim() * md.cfg.dModel
    requires g.wk == LA.Matrix(md.cfg.dModel, md.KvDim(), Layout.Transpose(kv.k, md.KvDim(), md.cfg.dModel))
    requires g.wv == LA.Matrix(md.cfg.dModel, md.KvDim(), Layout.Transpose(kv.v, md.KvDim(), md.cfg.dModel))
    requires Layout.ExpandGqa(kv.k, md.KvDim(), md.cfg.dModel, md.cfg.nHeads, md.cfg.nKvHeads) == Ok(e.wk.data)
    requires Layout.ExpandGqa(kv.v, md.KvDim(), md.cfg.dModel, md.cfg.nHeads, md.cfg.nKvHeads) == Ok(e.wv.data)
    requires e.wk.Fits(md.cfg.dModel, md.cfg.dModel) && e.wv.Fits(md.cfg.dModel, md.cfg.dModel) && e == g.(wk := e.wk, wv := e.wv)
    ensures Gqa.LayerFromSource(md, g, kv) && Gqa.LayerExpands(md, g, kv, e)
  {
    hide Layout.Transpose;
    hide Layout.ExpandGqa;
    hide FP.Model.Usable;
  }

  /** Both models can run, or neither; if they can, they return the same logits. */
  ghost predicate SameRuns(a: FP.Model, b: FP.Model, tokens: seq<nat>) {
    && FP.InVocabulary(a.cfg, tokens) && FP.InVocabulary(b.cfg, tokens)
    && (a.Valid() <==> b.Valid())
    && (a.Valid() ==> FP.Logits(a, tokens) == FP.Logits(b, tokens))
  }

  lemma {:induction false} SameRunsIs(a: FP.Model, b: FP.Model, tokens: seq<nat>)
    requires FP.InVocabulary(a.cfg, tokens) && FP.InVocabulary(b.cfg, tokens) && (a.Valid() <==> b.Valid())
    requires a.Valid() ==> FP.Logits(a, tokens) == FP.Logits(b, tokens)
    ensures SameRuns(a, b, tokens)
  {
  }

  lemma {:induction false} VocabularyHolds(c: Config, theta: real, tokens: seq<nat>)
    requires forall t :: 0 <= t < |tokens| ==> tokens[t] < c.vocabSize
    ensures FP.InVocabulary(ConfigWith(c, c.nKvHeads, theta), tokens) && FP.InVocabulary(ConfigWith(c, c.nHeads, theta), tokens)
  {
  }

  lemma {:induction false} FileModelIs(f: F32, maths: LA.Maths, c: Config, theta: real, src: Source)
    requires c.nHeads != 0 && WellSized(src)
    ensures FileModel(f, maths, c, theta, src) == ModelIn(maths, c, c.nHeads, theta, Dictionary(Names(c), InFile(f, c, src)))
  {
    hide ModelIn;
    hide Dictionary;
    hide Names;
    hide InFile;
  }

  lemma {:induction false} PlannedIsSourced(f: F32, c: Config, src: Source)
    requires Accepted(c) && WellSized(src) && Planned(f, c, src, FormatF32).Ok?
    ensures Sourced(c, src)
  {
    End.PlannedIs(f, c, src, FormatF32);
    ConversionIffLoadable(f, c, src);
    hide *;
    assert Sourced(c, src) by { SourcedIs(c, src); }
  }

  lemma {:induction false} SourcedIs(c: Config, src: Source)
    requires Accepted(c) && WellSized(src) && c.nHeads != 0 && Loadable(src, SourcePlan(c))
    ensures Sourced(c, src)
  {
    hide Accepted;
    hide Loadable;
    hide SourcePlan;
  }

  /** From the source model to logits through the file.  Convert an accepted model to f32, write it, read it, take the
      weights out: for every prompt the forward pass over them, with as many key/value heads as query heads, runs
      exactly when the pass over the stored source weights, each looked up by its name in the source file, runs with its
      own key/value heads, and then both return the same logits. */
  lemma {:induction false} FileRunsTheSource(f: F32, maths: LA.Maths, c: Config, theta: real, src: Source, meta: bool, file: seq<Byte>, tokens: seq<nat>)
    requires Accepted(c) && WellSized(src) && Planned(f, c, src, FormatF32).Ok?
    requires Writer.Build(c, Planned(f, c, src, FormatF32).value, meta) == Writer.Built(file)
    requires forall t :: 0 <= t < |tokens| ==> tokens[t] < c.vocabSize
    ensures c.nHeads != 0 && Reader.Parse(file).Ok? && FileArrays(f, Reader.Parse(file).value.tensors).Ok?
    ensures var written := FileArrays(f, Reader.Parse(file).value.tensors).value;
            SameRuns(ModelIn(maths, c, c.nHeads, theta, written), SourceModel(f, maths, c, theta, src), tokens)
  {
    assert c.nHeads != 0 && WellSized(src);
    PlannedIsSourced(f, c, src);
    var source, written := LoadedModel(f, maths, c, theta, src), FileModel(f, maths, c, theta, src);
    LoadedIsSource(f, maths, c, theta, src);
    VocabularyHolds(c, theta, tokens);
    assert source.cfg == ConfigWith(c, c.nKvHeads, theta) && written.cfg == ConfigWith(c, c.nHeads, theta);
    FileModelIs(f, maths, c, theta, src);
    hide *;
    FileLoads(f, c, src, meta, file);
    FileExpandsSource(f, maths, c, theta, src);
    Gqa.GqaExpansionPreservesMeaning(source, KvSources(f, c, src), written, tokens);
    SameRunsIs(written, source, tokens);
  }
}
