module PlannedTensors {
  // Tensors converted from a source of planned shapes pass every consistency check of the file builder.

  import opened Common
  import opened Bytes
  import opened Decimal
  import opened Quant
  import opened QuantCodec
  import opened TensorPlan
  import opened Att1Writer
  import Layout

  // ------------------------------------------------------- the two plans agree

  /** The item's source can be brought into the target layout by the steps it asks for. */
  ghost predicate Convertible(c: Config, item: SourceItem)
    requires c.nHeads != 0
  {
    && (|item.sourceShape| == 1 || |item.sourceShape| == 2)
    && (forall k :: 0 <= k < |item.sourceShape| ==> item.sourceShape[k] > 0)
    && if item.gqaExpand then
         && |item.sourceShape| == 2
         && item.sourceShape[0] == c.nKvHeads * (c.dModel / c.nHeads)
         && item.sourceShape[1] == c.dModel && item.targetShape == [c.dModel, c.dModel]
       else if item.transpose then
         |item.sourceShape| == 2 && item.targetShape == [item.sourceShape[1], item.sourceShape[0]]
       else item.targetShape == item.sourceShape
  }

  ghost predicate Aligned(c: Config, item: SourceItem, e: PlanEntry)
    requires c.nHeads != 0
  {
    item.target == e.name && item.targetShape == e.shape && Convertible(c, item)
  }

  lemma {:induction false} HeadsDivide(c: Config)
    requires Accepted(c)
    ensures c.nHeads > 0 && c.nKvHeads > 0 && c.nHeads % c.nKvHeads == 0 && c.dModel > 0 && c.vocabSize > 0 && c.dFf > 0 && c.nLayers > 0
    ensures FloorDiv(c.dModel, c.nHeads) == c.dModel / c.nHeads > 0
    ensures c.nHeads * (c.dModel / c.nHeads) == c.dModel
    ensures c.nKvHeads * (c.dModel / c.nHeads) > 0
    ensures c.nKvHeads == c.nHeads ==> c.nKvHeads * (c.dModel / c.nHeads) == c.dModel
  {
    AcceptedIff(c);
    FloorDivPositive(c.dModel, c.nHeads);
    var head := c.dModel / c.nHeads;
    assert c.dModel == c.nHeads * head;
    MulMonotone(1, c.nKvHeads, head);
  }

  lemma {:induction false} LayerAligned(c: Config, layer: nat, k: nat)
    requires Accepted(c) && k < 9
    ensures Aligned(c, LayerItems(c, layer)[k], LayerEntries(c, layer)[k])
  {
    HeadsDivide(c);
    hide FloorDiv;
    hide LayerName;
    hide SourceName;
    hide Accepted;
  }

  lemma {:induction false} LayersAligned(c: Config, n: nat, i: nat)
    requires Accepted(c) && i < 9 * n
    ensures Aligned(c, ItemsUpTo(c, n)[i], EntriesUpTo(c, n)[i])
  {
    hide LayerItems;
    hide LayerEntries;
    hide Aligned;
    hide Accepted;
    if i < 9 * (n - 1) {
      LayersAligned(c, n - 1, i);
    } else {
      LayerAligned(c, n - 1, i - 9 * (n - 1));
    }
  }

  /** Item for item, the source plan produces what the name plan demands. */
  lemma {:induction false} PlansAgree(c: Config, i: nat)
    requires Accepted(c) && i < |NamePlan(c)|
    ensures Aligned(c, SourcePlan(c)[i], NamePlan(c)[i])
  {
    HeadsDivide(c);
    hide ItemsUpTo;
    hide EntriesUpTo;
    hide Accepted;
    if 0 < i <= 9 * LayerCount(c) {
      LayersAligned(c, LayerCount(c), i - 1);
    }
  }

  // -------------------------------------------------------------- conversion

  /** An f32 tensor made for a plan entry. */
  ghost predicate MadeFor(e: PlanEntry, t: Tensor) {
    && t.name == e.name && t.shape == e.shape && t.dtype == DTYPE_F32
    && (|t.shape| == 1 || |t.shape| == 2) && (forall k :: 0 <= k < |t.shape| ==> t.shape[k] > 0)
    && Product(t.shape) >= 0 && |t.data| == 4 * Product(t.shape)
  }

  lemma {:induction false} ProductPositive(s: Shape)
    requires |s| == 1 || |s| == 2
    requires forall k :: 0 <= k < |s| ==> s[k] > 0
    ensures Product(s) > 0
  {
    if |s| == 1 {
      ProductOfOne(s);
    } else {
      ProductOfTwo(s);
      MulMonotone(1, s[0], s[1]);
    }
  }

  /** Values of the source shape are arranged into exactly as many values as the target shape holds. */
  lemma {:induction false} ArrangeSucceeds(c: Config, item: SourceItem, values: seq<real>)
    requires Accepted(c) && Convertible(c, item) && |values| == Product(item.sourceShape)
    ensures Arrange(c, item, values).Ok? && |Arrange(c, item, values).value| == Product(item.targetShape)
  {
    HeadsDivide(c);
    hide Accepted;
    if item.gqaExpand || item.transpose {
      ProductOfTwo(item.sourceShape);
      ProductOfTwo(item.targetShape);
    }
    if item.gqaExpand {
      var kv, d, head := item.sourceShape[0], item.sourceShape[1], c.dModel / c.nHeads;
      DivModUnique(kv, c.nKvHeads, head, 0);
    }
    hide Product;
    hide Layout.Transpose;
    hide Layout.Expanded;
  }

  lemma {:induction false} ItemConverts(f: F32, c: Config, src: Source, item: SourceItem, e: PlanEntry)
    requires Accepted(c) && WellSized(src) && Aligned(c, item, e) && LoadItem(src, item).Ok?
    ensures ConvertItem(f, c, src, item).Ok? && MadeFor(e, ConvertItem(f, c, src, item).value)
  {
    HeadsDivide(c);
    hide Accepted;
    ArrangeSucceeds(c, item, LoadItem(src, item).value);
    ProductPositive(item.sourceShape);
    if item.gqaExpand || item.transpose {
      ProductOfTwo(item.targetShape);
      TargetPositive(c, item);
    }
    ProductPositive(item.targetShape);
    hide Arrange;
    hide Product;
    hide F32Bytes;
  }

  lemma {:induction false} TargetPositive(c: Config, item: SourceItem)
    requires c.nHeads > 0 && c.dModel > 0 && Convertible(c, item)
    ensures forall k :: 0 <= k < |item.targetShape| ==> item.targetShape[k] > 0
  {
  }

  ghost predicate Loadable(src: Source, items: seq<SourceItem>) {
    forall i :: 0 <= i < |items| ==> LoadItem(src, items[i]).Ok?
  }

  ghost predicate AllMade(plan: seq<PlanEntry>, r: Result<seq<Tensor>>) {
    match r
    case Err(_) => false
    case Ok(ts) => |ts| == |plan| && forall i :: 0 <= i < |ts| ==> MadeFor(plan[i], ts[i])
  }

  lemma {:induction false} AllConvert(f: F32, c: Config, src: Source, items: seq<SourceItem>, plan: seq<PlanEntry>)
    requires Accepted(c) && WellSized(src) && |items| == |plan|
    requires forall i :: 0 <= i < |items| ==> Aligned(c, items[i], plan[i])
    ensures Loadable(src, items) ==> AllMade(plan, ConvertAll(f, c, src, items))
    ensures ConvertAll(f, c, src, items).Ok? ==> Loadable(src, items)
  {
    hide ConvertItem;
    hide LoadItem;
    hide Aligned;
    hide MadeFor;
    hide Accepted;
    hide WellSized;
    if |items| > 0 {
      var n := |items| - 1;
      AllConvert(f, c, src, items[..n], plan[..n]);
      LoadNeeded(f, c, src, items[n]);
      if LoadItem(src, items[n]).Ok? {
        ItemConverts(f, c, src, items[n], plan[n]);
      }
    }
  }

  lemma {:induction false} LoadNeeded(f: F32, c: Config, src: Source, item: SourceItem)
    requires WellSized(src)
    ensures ConvertItem(f, c, src, item).Ok? ==> LoadItem(src, item).Ok?
  {
  }

  /** For an accepted configuration the only thing that can stop the conversion is a source tensor that
      is missing or misshapen, and what it produces matches the name plan in order, shape and size. */
  lemma {:induction false} ConversionIffLoadable(f: F32, c: Config, src: Source)
    requires Accepted(c) && WellSized(src)
    ensures ConvertAll(f, c, src, SourcePlan(c)).Ok? <==> Loadable(src, SourcePlan(c))
    ensures Loadable(src, SourcePlan(c)) ==> AllMade(NamePlan(c), ConvertAll(f, c, src, SourcePlan(c)))
  {
    forall i | 0 <= i < |NamePlan(c)|
      ensures Aligned(c, SourcePlan(c)[i], NamePlan(c)[i])
    {
      PlansAgree(c, i);
    }
    hide *;
    AllConvert(f, c, src, SourcePlan(c), NamePlan(c));
  }

  // ------------------------------------------------------------ quantisation

  lemma {:induction false} MadeIsSized(e: PlanEntry, t: Tensor)
    requires MadeFor(e, t)
    ensures F32Sized(t)
  {
  }

  /** Quantised or not, the tensor passes the builder's check for its entry. */
  lemma {:induction false} QuantizedMatches(f: F32, fmt: Format, e: PlanEntry, t: Tensor)
    requires MadeFor(e, t) && F32Sized(t)
    ensures Matches(e, Quantize(f, fmt, t)) && Quantize(f, fmt, t).name == e.name
  {
    hide Product;
    hide Q8Data;
    hide Q4Data;
    hide ReadF32s;
    hide Layout.Transpose;
    if |t.shape| == 2 {
      ProductOfTwo(t.shape);
      var inDim, outDim := t.shape[0], t.shape[1];
      assert outDim * inDim == inDim * outDim;
      if inDim % Q4_GROUP_SIZE == 0 {
        TotalGroups(outDim, inDim / Q4_GROUP_SIZE, Q4_GROUP_SIZE, inDim);
        HalfSize(outDim * (inDim / Q4_GROUP_SIZE), Q4_GROUP_SIZE);
      }
    }
  }

  /** The tensor list handed to the builder. */
  function Planned(f: F32, c: Config, src: Source, fmt: Format): (r: Result<seq<Tensor>>)
    requires Accepted(c) && WellSized(src)
  {
    match ConvertAll(f, c, src, SourcePlan(c))
    case Err(e) => Err(e)
    case Ok(ts) =>
      ConversionIffLoadable(f, c, src);
      AllSized(NamePlan(c), ts);
      Ok(QuantizeAll(f, fmt, ts))
  }

  lemma {:induction false} AllSized(plan: seq<PlanEntry>, ts: seq<Tensor>)
    requires |plan| == |ts| && forall i :: 0 <= i < |ts| ==> MadeFor(plan[i], ts[i])
    ensures forall i :: 0 <= i < |ts| ==> F32Sized(ts[i])
  {
    hide F32Sized;
    hide MadeFor;
    forall i | 0 <= i < |ts|
      ensures F32Sized(ts[i])
    {
      MadeIsSized(plan[i], ts[i]);
    }
  }

  /** One tensor of the q8 and q4 loops. */
  method QuantizeTensor(f: F32, fmt: Format, t: Tensor) returns (q: Tensor)
    requires F32Sized(t)
    ensures q == Quantize(f, fmt, t)
  {
    if fmt == FormatQ8 && Q8Eligible(t.name, t.shape) {
      ProductOfTwo(t.shape);
      var values := ReadF32s(f, t.data, Product(t.shape));
      hide ReadF32s;
      var data := QuantizeQ8(f, values, t.shape[0], t.shape[1]);
      q := Tensor(t.name, [t.shape[1], t.shape[0]], DTYPE_Q8, data, 0);
    } else if fmt == FormatQ4 && Q4Eligible(t.name, t.shape) {
      q := MakeQ4(f, t);
    } else {
      q := t;
    }
  }

  /** `_make_q4_tensor_from_f32`. */
  method MakeQ4(f: F32, t: Tensor) returns (q: Tensor)
    requires F32Sized(t) && Q4Eligible(t.name, t.shape)
    ensures q == Quantize(f, FormatQ4, t)
  {
    ProductOfTwo(t.shape);
    var values := ReadF32s(f, t.data, Product(t.shape));
    var inDim, outDim := t.shape[0], t.shape[1];
    hide ReadF32s;
    hide Product;
    var transposed := Layout.Transpose(values, inDim, outDim);
    hide Layout.Transpose;
    assert |transposed| == outDim * inDim;
    var ok, packed, scales := QuantizeQ4(transposed, outDim, inDim, Q4_GROUP_SIZE);
    WholeGroups(transposed, outDim, inDim, Q4_GROUP_SIZE);
    q := Tensor(t.name, [outDim, inDim], DTYPE_Q4, packed[..] + F32Bytes(f, scales), Q4_GROUP_SIZE);
  }

  /** The loop of `build_real_q8_tensors` and `build_real_q4_tensors`. */
  method QuantizeTensors(f: F32, fmt: Format, ts: seq<Tensor>) returns (qs: seq<Tensor>)
    requires forall i :: 0 <= i < |ts| ==> F32Sized(ts[i])
    ensures qs == QuantizeAll(f, fmt, ts)
  {
    qs := [];
    hide Quantize;
    hide F32Sized;
    for i := 0 to |ts|
      invariant qs == QuantizeAll(f, fmt, ts)[..i]
    {
      var q := QuantizeTensor(f, fmt, ts[i]);
      qs := qs + [q];
    }
  }

  // ------------------------------------------------------------------ names

  const MAX_LAYER_DIGITS := 34

  lemma {:induction false} DigitsAscii(n: nat)
    ensures Ascii(Digits(n))
  {
  }

  lemma {:induction false} AsciiConcat(a: string, b: string)
    requires Ascii(a) && Ascii(b)
    ensures Ascii(a + b)
  {
  }

  lemma {:induction false} LayerNameFits(layer: nat, suffix: string)
    requires Ascii(suffix)
    ensures NameFits(LayerName(layer, suffix)) <==> |Digits(layer)| + |suffix| <= 56
  {
    DigitsAscii(layer);
    AsciiConcat("layers.", Digits(layer));
    AsciiConcat("layers." + Digits(layer), suffix);
  }

  ghost predicate EntryFits(e: PlanEntry) {
    NameFits(e.name)
  }

  ghost predicate EntriesAllFit(es: seq<PlanEntry>) {
    forall i :: 0 <= i < |es| ==> EntryFits(es[i])
  }

  lemma {:induction false} AttentionSuffixAscii(k: nat)
    requires k < 5
    ensures Ascii(Suffix(k))
  {
    match k
    case 0 =>
    case 1 =>
    case 2 =>
    case 3 =>
    case _ =>
  }

  lemma {:induction false} SuffixAscii(k: nat)
    requires k < 9
    ensures Ascii(Suffix(k))
  {
    if k < 5 {
      AttentionSuffixAscii(k);
    }
  }

  /** The longest suffix leaves 34 places for the layer number. */
  lemma {:induction false} SuffixedNamesFit(es: seq<PlanEntry>, layer: nat)
    requires |es| == 9 && forall k :: 0 <= k < 9 ==> es[k].name == LayerName(layer, Suffix(k))
    ensures EntriesAllFit(es) <==> |Digits(layer)| <= MAX_LAYER_DIGITS
  {
    assert |Suffix(0)| == 22;
    hide Suffix;
    hide LayerName;
    hide NameFits;
    hide Digits;
    forall k | 0 <= k < 9
      ensures EntryFits(es[k]) <==> |Digits(layer)| + |Suffix(k)| <= 56
    {
      SuffixAscii(k);
      LayerNameFits(layer, Suffix(k));
    }
  }

  lemma {:induction false} LayerNamesFit(c: Config, layer: nat)
    ensures EntriesAllFit(LayerEntries(c, layer)) <==> |Digits(layer)| <= MAX_LAYER_DIGITS
  {
    forall k | 0 <= k < 9
      ensures LayerEntries(c, layer)[k].name == LayerName(layer, Suffix(k))
    {
      LayerEntryName(c, layer, k);
    }
    hide *;
    SuffixedNamesFit(LayerEntries(c, layer), layer);
  }

  lemma {:induction false} AllFitConcat(a: seq<PlanEntry>, b: seq<PlanEntry>)
    ensures EntriesAllFit(a + b) <==> EntriesAllFit(a) && EntriesAllFit(b)
  {
    hide EntryFits;
    if EntriesAllFit(a + b) {
      forall i | 0 <= i < |a|
        ensures EntryFits(a[i])
      {
        assert a[i] == (a + b)[i];
      }
      forall i | 0 <= i < |b|
        ensures EntryFits(b[i])
      {
        assert b[i] == (a + b)[|a| + i];
      }
    }
  }

  lemma {:induction false} EntriesFit(c: Config, n: nat)
    ensures EntriesAllFit(EntriesUpTo(c, n)) <==> n == 0 || |Digits(n - 1)| <= MAX_LAYER_DIGITS
  {
    hide EntriesAllFit;
    hide LayerEntries;
    hide Digits;
    if n > 0 {
      EntriesFit(c, n - 1);
      LayerNamesFit(c, n - 1);
      AllFitConcat(EntriesUpTo(c, n - 1), LayerEntries(c, n - 1));
      if n > 1 {
        DigitsMonotone(n - 2, n - 1);
      }
    } else {
      NoneFit();
    }
  }

  lemma {:induction false} NoneFit()
    ensures EntriesAllFit([])
  {
  }

  lemma {:induction false} PlanNamesFit(c: Config)
    requires c.nLayers > 0
    ensures EntriesAllFit(NamePlan(c)) <==> |Digits(c.nLayers - 1)| <= MAX_LAYER_DIGITS
  {
    var first := [PlanEntry("tok_embeddings.weight", [c.vocabSize, c.dModel])];
    var entries := EntriesUpTo(c, c.nLayers);
    var last := [PlanEntry("output_norm.weight", [c.dModel]), PlanEntry("output.weight", [c.dModel, c.vocabSize])];
    OuterNamesFit(first, last);
    EntriesFit(c, c.nLayers);
    hide EntriesAllFit;
    hide EntriesUpTo;
    hide Digits;
    AllFitConcat(first, entries);
    AllFitConcat(first + entries, last);
  }

  lemma {:induction false} OuterNamesFit(first: seq<PlanEntry>, last: seq<PlanEntry>)
    requires |first| == 1 && first[0].name == "tok_embeddings.weight"
    requires |last| == 2 && last[0].name == "output_norm.weight" && last[1].name == "output.weight"
    ensures EntriesAllFit(first) && EntriesAllFit(last)
  {
    LiteralsFit();
    hide NameFits;
  }

  lemma {:induction false} LiteralsFit()
    ensures NameFits("tok_embeddings.weight") && NameFits("output_norm.weight") && NameFits("output.weight")
  {
  }

  // ----------------------------------------------------------- main theorem

  lemma {:induction false} PlannedMatches(f: F32, c: Config, src: Source, fmt: Format)
    requires Accepted(c) && WellSized(src) && Planned(f, c, src, fmt).Ok?
    ensures var ts := Planned(f, c, src, fmt).value;
            && |ts| == |NamePlan(c)| && AllMatch(NamePlan(c), ts)
            && forall i :: 0 <= i < |ts| ==> ts[i].name == NamePlan(c)[i].name
  {
    ConversionIffLoadable(f, c, src);
    var ts, qs := ConvertAll(f, c, src, SourcePlan(c)).value, Planned(f, c, src, fmt).value;
    hide SourcePlan;
    hide NamePlan;
    hide MadeFor;
    hide Quantize;
    hide Matches;
    hide F32Sized;
    AllSized(NamePlan(c), ts);
    forall i | 0 <= i < |qs|
      ensures Matches(NamePlan(c)[i], qs[i]) && qs[i].name == NamePlan(c)[i].name
    {
      QuantizedMatches(f, fmt, NamePlan(c)[i], ts[i]);
    }
  }

  lemma {:induction false} SameNamesFit(plan: seq<PlanEntry>, ts: seq<Tensor>)
    requires |ts| == |plan| && forall i :: 0 <= i < |ts| ==> ts[i].name == plan[i].name
    ensures NamesFit(ts) <==> EntriesAllFit(plan)
  {
    hide NameFits;
    if NamesFit(ts) {
      forall i | 0 <= i < |plan|
        ensures EntryFits(plan[i])
      {
        assert NameFits(ts[i].name);
      }
    } else {
      var i :| 0 <= i < |ts| && !NameFits(ts[i].name);
      assert !EntryFits(plan[i]);
    }
  }

  /** The builder rejects a converted list in exactly one case: the last layer's number has more than 34
      digits and its names do not fit their field.  No other consistency check ever fails. */
  lemma {:induction false} PlannedNeverRejected(f: F32, c: Config, src: Source, fmt: Format, meta: bool)
    requires Accepted(c) && WellSized(src) && Planned(f, c, src, fmt).Ok?
    ensures c.nLayers > 0
    ensures Build(c, Planned(f, c, src, fmt).value, meta).Rejected? <==> |Digits(c.nLayers - 1)| > MAX_LAYER_DIGITS
  {
    HeadsDivide(c);
    PlannedMatches(f, c, src, fmt);
    PlanNamesFit(c);
    SameNamesFit(NamePlan(c), Planned(f, c, src, fmt).value);
    hide Planned;
    hide NamePlan;
    hide AllMatch;
    hide NamesFit;
    hide EntriesAllFit;
    hide Digits;
    hide FileFits;
    hide File;
    hide Accepted;
  }
}
