module SourceNames {
  // Which source tensor ends up under which name of the artifact, spelled out by the names in the two files.

  import opened Common
  import opened Bytes
  import opened Decimal
  import opened TensorPlan
  import opened PlannedTensors
  import Layout

  function SourceOf(l: nat, suffix: string): string {
    "model.layers." + Digits(l) + suffix
  }

  function TargetOf(l: nat, suffix: string): string {
    "layers." + Digits(l) + suffix
  }

  function Values(src: Source, name: string): seq<real> {
    if name in src then src[name].values else []
  }

  predicate Has(src: Source, name: string, shape: Shape) {
    name in src && src[name].shape == shape
  }

  /** Rows of a key or value projection. */
  function KvRows(c: Config): int
    requires c.nHeads != 0
  {
    c.nKvHeads * (c.dModel / c.nHeads)
  }

  /** The nine tensors of a source layer, in the artifact's order. */
  function SourceSuffix(k: nat): string
    requires k < 9
  {
    match k
    case 0 => ".input_layernorm.weight"
    case 1 => ".self_attn.q_proj.weight"
    case 2 => ".self_attn.k_proj.weight"
    case 3 => ".self_attn.v_proj.weight"
    case 4 => ".self_attn.o_proj.weight"
    case 5 => ".post_attention_layernorm.weight"
    case 6 => ".mlp.gate_proj.weight"
    case 7 => ".mlp.up_proj.weight"
    case _ => ".mlp.down_proj.weight"
  }

  /** What each is called in the artifact. */
  function TargetSuffix(k: nat): string
    requires k < 9
  {
    match k
    case 0 => ".attention_norm.weight"
    case 1 => ".attention.wq.weight"
    case 2 => ".attention.wk.weight"
    case 3 => ".attention.wv.weight"
    case 4 => ".attention.wo.weight"
    case 5 => ".ffn_norm.weight"
    case 6 => ".ffn.w_gate.weight"
    case 7 => ".ffn.w_up.weight"
    case _ => ".ffn.w_down.weight"
  }

  function SourceShape(c: Config, k: nat): Shape
    requires c.nHeads != 0 && k < 9
  {
    var d, ff, kv := c.dModel, c.dFf, KvRows(c);
    match k
    case 0 => [d]
    case 1 => [d, d]
    case 2 => [kv, d]
    case 3 => [kv, d]
    case 4 => [d, d]
    case 5 => [d]
    case 6 => [ff, d]
    case 7 => [ff, d]
    case _ => [d, ff]
  }

  function TargetShape(c: Config, k: nat): Shape
    requires k < 9
  {
    var d, ff := c.dModel, c.dFf;
    match k
    case 0 => [d]
    case 1 => [d, d]
    case 2 => [d, d]
    case 3 => [d, d]
    case 4 => [d, d]
    case 5 => [d]
    case 6 => [d, ff]
    case 7 => [d, ff]
    case _ => [ff, d]
  }

  predicate LayerComplete(c: Config, src: Source, l: nat)
    requires c.nHeads != 0
  {
    forall k :: 0 <= k < 9 ==> Has(src, SourceOf(l, SourceSuffix(k)), SourceShape(c, k))
  }

  /** The tensor behind the output projection: lm_head, or the embedding it is tied to. */
  function HeadName(src: Source): string {
    if "lm_head.weight" in src then "lm_head.weight" else "model.embed_tokens.weight"
  }

  /** A source with every tensor of a LLaMA model in its shape. */
  predicate Complete(c: Config, src: Source)
    requires c.nHeads != 0
  {
    && Has(src, "model.embed_tokens.weight", [c.vocabSize, c.dModel])
    && Has(src, "model.norm.weight", [c.dModel])
    && Has(src, HeadName(src), [c.vocabSize, c.dModel])
    && forall l :: 0 <= l < c.nLayers ==> LayerComplete(c, src, l)
  }

  // ------------------------------------------------------------- the artifact

  /** An f32 tensor of the artifact. */
  function Stored(f: F32, name: string, shape: Shape, values: seq<real>): Tensor {
    Tensor(name, shape, 1, F32Bytes(f, values), 0)
  }

  /** A source matrix of the given shape, turned over. */
  function Turned(src: Source, name: string, rows: int, cols: int): seq<real> {
    var v := Values(src, name);
    if rows >= 0 && cols >= 0 && |v| == rows * cols then Layout.Transpose(v, rows, cols) else []
  }

  /** A key or value projection, turned over and with its heads repeated where there are fewer of them. */
  function Spread(c: Config, src: Source, name: string): seq<real>
    requires c.nHeads != 0
  {
    var v, kv, d := Values(src, name), KvRows(c), c.dModel;
    if kv >= 0 && d >= 0 && |v| == kv * d && Layout.ExpandGqa(v, kv, d, c.nHeads, c.nKvHeads).Ok?
    then Layout.ExpandGqa(v, kv, d, c.nHeads, c.nKvHeads).value
    else []
  }

  /** The values tensor k of layer l is made of: norms as they are, keys and values spread, other matrices turned over. */
  function Image(c: Config, src: Source, l: nat, k: nat): seq<real>
    requires c.nHeads != 0 && k < 9
  {
    var name, shape := SourceOf(l, SourceSuffix(k)), SourceShape(c, k);
    if k == 0 || k == 5 then Values(src, name)
    else if k == 2 || k == 3 then Spread(c, src, name)
    else if |shape| == 2 then Turned(src, name, shape[0], shape[1]) else []
  }

  /** The nine tensors of layer l, at their places in the list. */
  ghost predicate LayerConverted(f: F32, c: Config, src: Source, ts: seq<Tensor>, l: nat)
    requires c.nHeads != 0 && 9 * l + 9 < |ts|
  {
    forall k :: 0 <= k < 9 ==> ts[9 * l + 1 + k] == Stored(f, TargetOf(l, TargetSuffix(k)), TargetShape(c, k), Image(c, src, l, k))
  }

  /** The tensors outside the layers. */
  ghost predicate OuterConverted(f: F32, c: Config, src: Source, ts: seq<Tensor>)
    requires c.nLayers >= 0 && |ts| == 9 * c.nLayers + 3
  {
    var v, d := c.vocabSize, c.dModel;
    && ts[0] == Stored(f, "tok_embeddings.weight", [v, d], Values(src, "model.embed_tokens.weight"))
    && ts[9 * c.nLayers + 1] == Stored(f, "output_norm.weight", [d], Values(src, "model.norm.weight"))
    && ts[9 * c.nLayers + 2] == Stored(f, "output.weight", [d, v], Turned(src, HeadName(src), v, d))
  }

  // ------------------------------------------------------------ the item tables

  lemma {:induction false} NineItems(c: Config, layer: nat)
    requires c.nHeads != 0
    ensures |LayerItems(c, layer)| == 9
  {
    hide LayerName;
    hide SourceName;
    hide FloorDiv;
  }

  /** The items of layer l are the nine from position 9 l on. */
  lemma {:induction false} ItemOfLayer(c: Config, n: nat, i: nat)
    requires c.nHeads != 0 && i < 9 * n
    ensures |LayerItems(c, i / 9)| == 9 && ItemsUpTo(c, n)[i] == LayerItems(c, i / 9)[i % 9]
  {
    hide LayerItems;
    NineItems(c, i / 9);
    NineItems(c, n - 1);
    if i < 9 * (n - 1) {
      ItemOfLayer(c, n - 1, i);
    }
  }

  lemma {:induction false} ItemPlace(c: Config, l: nat, k: nat)
    requires c.nHeads != 0 && l < LayerCount(c) && k < 9
    ensures 1 + 9 * l + k <= 9 * LayerCount(c) && |LayerItems(c, l)| == 9
    ensures SourcePlan(c)[1 + 9 * l + k] == LayerItems(c, l)[k]
  {
    hide LayerItems;
    hide ItemsUpTo;
    var i := 9 * l + k;
    assert i / 9 == l && i % 9 == k;
    ItemOfLayer(c, LayerCount(c), i);
  }

  lemma {:induction false} ConvertedAt(f: F32, c: Config, src: Source, items: seq<SourceItem>, i: nat)
    requires WellSized(src) && ConvertAll(f, c, src, items).Ok? && i < |items|
    ensures ConvertItem(f, c, src, items[i]) == Ok(ConvertAll(f, c, src, items).value[i])
  {
    hide ConvertItem;
    if i < |items| - 1 {
      ConvertedAt(f, c, src, items[..|items| - 1], i);
    }
  }

  // ------------------------------------------------------------------ loading

  /** A source name of a layer is none of the three others. */
  lemma {:induction false} LoadsIff(c: Config, src: Source, item: SourceItem)
    requires item.source != "lm_head.weight"
    ensures LoadItem(src, item).Ok? <==> Has(src, item.source, item.sourceShape)
    ensures LoadItem(src, item).Ok? ==> LoadItem(src, item).value == Values(src, item.source)
  {
  }

  lemma {:induction false} HeadLoadsIff(c: Config, src: Source, item: SourceItem)
    requires item.source == "lm_head.weight"
    ensures LoadItem(src, item).Ok? <==> Has(src, HeadName(src), item.sourceShape)
    ensures LoadItem(src, item).Ok? ==> LoadItem(src, item).value == Values(src, HeadName(src))
  {
  }

  lemma {:induction false} KvRowsAre(c: Config)
    requires Accepted(c)
    ensures c.nHeads > 0 && c.nKvHeads > 0 && c.dModel > 0 && c.dFf > 0 && c.vocabSize > 0 && c.nLayers > 0 && LayerCount(c) == c.nLayers
    ensures c.nKvHeads * FloorDiv(c.dModel, c.nHeads) == KvRows(c) > 0
    ensures c.nKvHeads == c.nHeads ==> KvRows(c) == c.dModel
  {
    HeadsDivide(c);
  }

  /** Item k of a layer asks for that source tensor and makes that target. */
  lemma {:induction false} LayerItemIs(c: Config, l: nat, k: nat)
    requires Accepted(c) && k < 9
    ensures c.nHeads > 0 && |LayerItems(c, l)| == 9
    ensures var item := LayerItems(c, l)[k];
            && item.source == SourceOf(l, SourceSuffix(k)) && item.sourceShape == SourceShape(c, k)
            && item.target == TargetOf(l, TargetSuffix(k)) && item.targetShape == TargetShape(c, k)
            && (item.gqaExpand <==> (k == 2 || k == 3) && c.nKvHeads != c.nHeads)
            && (item.transpose <==> k != 0 && k != 5)
  {
    KvRowsAre(c);
    LayerItemNames(c, l, k);
    LayerItemShapes(c, l, k);
    hide *;
  }

  lemma {:induction false} LayerItemNames(c: Config, l: nat, k: nat)
    requires c.nHeads != 0 && k < 9
    ensures |LayerItems(c, l)| == 9
    ensures var item := LayerItems(c, l)[k];
            item.source == SourceOf(l, SourceSuffix(k)) && item.target == TargetOf(l, TargetSuffix(k))
  {
    hide FloorDiv;
    hide Digits;
  }

  lemma {:induction false} LayerItemShapes(c: Config, l: nat, k: nat)
    requires Accepted(c) && k < 9
    ensures c.nHeads > 0 && |LayerItems(c, l)| == 9
    ensures var item := LayerItems(c, l)[k];
            && item.sourceShape == SourceShape(c, k) && item.targetShape == TargetShape(c, k)
            && (item.gqaExpand <==> (k == 2 || k == 3) && c.nKvHeads != c.nHeads)
            && (item.transpose <==> k != 0 && k != 5)
  {
    KvRowsAre(c);
    hide Accepted;
    hide FloorDiv;
    hide KvRows;
    hide SourceName;
    hide LayerName;
  }

  lemma {:induction false} NotTheHead(l: nat, suffix: string)
    ensures SourceOf(l, suffix) != "lm_head.weight"
  {
    assert SourceOf(l, suffix)[0] == 'm';
  }

  lemma {:induction false} LayerItemLoads(c: Config, src: Source, l: nat, k: nat)
    requires Accepted(c) && k < 9
    ensures c.nHeads > 0 && |LayerItems(c, l)| == 9
    ensures LoadItem(src, LayerItems(c, l)[k]).Ok? <==> Has(src, SourceOf(l, SourceSuffix(k)), SourceShape(c, k))
    ensures LoadItem(src, LayerItems(c, l)[k]).Ok? ==> LoadItem(src, LayerItems(c, l)[k]).value == Values(src, SourceOf(l, SourceSuffix(k)))
  {
    hide *;
    LayerItemIs(c, l, k);
    NotTheHead(l, SourceSuffix(k));
    LoadsIff(c, src, LayerItems(c, l)[k]);
  }

  ghost predicate LayerLoads(c: Config, src: Source, l: nat)
    requires c.nHeads != 0
  {
    forall k :: 0 <= k < |LayerItems(c, l)| ==> LoadItem(src, LayerItems(c, l)[k]).Ok?
  }

  lemma {:induction false} LayerLoadsIff(c: Config, src: Source, l: nat)
    requires Accepted(c)
    ensures c.nHeads != 0 && (LayerLoads(c, src, l) <==> LayerComplete(c, src, l))
  {
    KvRowsAre(c);
    NineItems(c, l);
    hide Accepted;
    hide LayerItems;
    hide LoadItem;
    hide Has;
    hide SourceOf;
    hide SourceSuffix;
    hide SourceShape;
    forall k | 0 <= k < 9
      ensures LoadItem(src, LayerItems(c, l)[k]).Ok? <==> Has(src, SourceOf(l, SourceSuffix(k)), SourceShape(c, k))
    {
      LayerItemLoads(c, src, l, k);
    }
  }

  lemma {:induction false} OuterSources(c: Config)
    requires Accepted(c)
    ensures c.nHeads != 0 && |SourcePlan(c)| == 9 * c.nLayers + 3
    ensures var v, d, n, p := c.vocabSize, c.dModel, 9 * c.nLayers, SourcePlan(c);
            && p[0] == SourceItem("model.embed_tokens.weight", "tok_embeddings.weight", [v, d], [v, d], false, false)
            && p[n + 1] == SourceItem("model.norm.weight", "output_norm.weight", [d], [d], false, false)
            && p[n + 2] == SourceItem("lm_head.weight", "output.weight", [v, d], [d, v], true, false)
  {
    KvRowsAre(c);
    hide Accepted;
    hide ItemsUpTo;
  }

  ghost predicate LayersLoad(c: Config, src: Source)
    requires c.nHeads != 0
  {
    forall i :: 1 <= i <= 9 * LayerCount(c) ==> LoadItem(src, SourcePlan(c)[i]).Ok?
  }

  lemma {:induction false} LayersLoadIff(c: Config, src: Source)
    requires Accepted(c)
    ensures c.nHeads != 0 && LayerCount(c) == c.nLayers
    ensures LayersLoad(c, src) <==> forall l :: 0 <= l < c.nLayers ==> LayerComplete(c, src, l)
  {
    KvRowsAre(c);
    hide Accepted;
    hide SourcePlan;
    hide LoadItem;
    hide LayerComplete;
    hide LayerLoads;
    hide LayerItems;
    if LayersLoad(c, src) {
      forall l | 0 <= l < c.nLayers
        ensures LayerComplete(c, src, l)
      {
        LayerOfPlan(c, src, l);
        LayerLoadsIff(c, src, l);
      }
    }
    if forall l :: 0 <= l < c.nLayers ==> LayerComplete(c, src, l) {
      forall i | 1 <= i <= 9 * LayerCount(c)
        ensures LoadItem(src, SourcePlan(c)[i]).Ok?
      {
        LayerLoadsIff(c, src, (i - 1) / 9);
        ItemOfPlan(c, src, i);
      }
    }
  }

  lemma {:induction false} ItemOfPlan(c: Config, src: Source, i: nat)
    requires c.nHeads != 0 && 1 <= i <= 9 * LayerCount(c) && LayerLoads(c, src, (i - 1) / 9)
    ensures LoadItem(src, SourcePlan(c)[i]).Ok?
  {
    hide LayerItems;
    hide SourcePlan;
    hide LoadItem;
    ItemPlace(c, (i - 1) / 9, (i - 1) % 9);
  }

  lemma {:induction false} LayerOfPlan(c: Config, src: Source, l: nat)
    requires c.nHeads != 0 && l < LayerCount(c) && LayersLoad(c, src)
    ensures LayerLoads(c, src, l)
  {
    hide LayerItems;
    hide SourcePlan;
    hide LoadItem;
    NineItems(c, l);
    forall k | 0 <= k < 9
      ensures LoadItem(src, LayerItems(c, l)[k]).Ok?
    {
      ItemPlace(c, l, k);
    }
  }

  /** The plan can be loaded exactly when the source is complete. */
  lemma {:induction false} LoadableIffComplete(c: Config, src: Source)
    requires Accepted(c)
    ensures c.nHeads != 0 && (Loadable(src, SourcePlan(c)) <==> Complete(c, src))
  {
    LayersLoadIff(c, src);
    OuterSources(c);
    var p, n := SourcePlan(c), 9 * c.nLayers;
    LoadsIff(c, src, p[0]);
    LoadsIff(c, src, p[n + 1]);
    HeadLoadsIff(c, src, p[n + 2]);
    LoadableSplits(c, src);
    hide Accepted;
    hide SourcePlan;
    hide Loadable;
    hide LayersLoad;
    hide LoadItem;
    hide LayerComplete;
    hide Has;
  }

  lemma {:induction false} LoadableSplits(c: Config, src: Source)
    requires c.nHeads != 0
    ensures var p, n := SourcePlan(c), 9 * LayerCount(c);
            (Loadable(src, p) <==>
              LoadItem(src, p[0]).Ok? && LayersLoad(c, src) && LoadItem(src, p[n + 1]).Ok? && LoadItem(src, p[n + 2]).Ok?)
  {
    hide SourcePlan;
    hide LoadItem;
    hide LayerCount;
  }

  // --------------------------------------------------------------- converting

  /** The values an item brings, in the layout it asks for. */
  function Laid(c: Config, src: Source, item: SourceItem, name: string): seq<real>
    requires c.nHeads != 0
  {
    if item.gqaExpand then Spread(c, src, name)
    else if item.transpose && |item.sourceShape| == 2 then Turned(src, name, item.sourceShape[0], item.sourceShape[1])
    else Values(src, name)
  }

  lemma {:induction false} ItemTensor(f: F32, c: Config, src: Source, item: SourceItem, name: string)
    requires Accepted(c) && WellSized(src) && Convertible(c, item) && LoadItem(src, item) == Ok(Values(src, name))
    requires item.gqaExpand ==> item.transpose
    ensures c.nHeads != 0 && ConvertItem(f, c, src, item) == Ok(Stored(f, item.target, item.targetShape, Laid(c, src, item, name)))
  {
    var values := Values(src, name);
    KvRowsAre(c);
    LoadedSize(src, item);
    ArrangeSucceeds(c, item, values);
    if |item.sourceShape| == 2 {
      ProductOfTwo(item.sourceShape);
    }
    hide Accepted;
    hide WellSized;
    hide LoadItem;
    hide Product;
    hide F32Bytes;
    hide Layout.Transpose;
    hide Layout.ExpandGqa;
    assert Arrange(c, item, values) == Ok(Laid(c, src, item, name));
  }

  lemma {:induction false} LoadedSize(src: Source, item: SourceItem)
    requires WellSized(src) && LoadItem(src, item).Ok?
    ensures |LoadItem(src, item).value| == Product(item.sourceShape)
  {
  }

  /** Unexpanded projections are turned over, which is what spreading does when every head has its own. */
  lemma {:induction false} SpreadUngrouped(c: Config, src: Source, name: string)
    requires Accepted(c) && c.nKvHeads == c.nHeads && |Values(src, name)| == KvRows(c) * c.dModel
    ensures c.nHeads != 0 && Spread(c, src, name) == Turned(src, name, KvRows(c), c.dModel)
  {
    KvRowsAre(c);
    hide Accepted;
    hide KvRows;
    hide Layout.Transpose;
  }

  lemma {:induction false} ItemLoads(src: Source, items: seq<SourceItem>, i: nat)
    requires Loadable(src, items) && i < |items|
    ensures LoadItem(src, items[i]).Ok?
  {
    hide LoadItem;
  }

  /** Tensor k of layer l. */
  lemma {:induction false} LayerTensor(f: F32, c: Config, src: Source, l: nat, k: nat)
    requires Accepted(c) && WellSized(src) && Loadable(src, SourcePlan(c)) && ConvertAll(f, c, src, SourcePlan(c)).Ok?
    requires l < LayerCount(c) && k < 9
    ensures c.nHeads != 0 && 9 * l + 1 + k < |ConvertAll(f, c, src, SourcePlan(c)).value|
    ensures ConvertAll(f, c, src, SourcePlan(c)).value[9 * l + 1 + k]
         == Stored(f, TargetOf(l, TargetSuffix(k)), TargetShape(c, k), Image(c, src, l, k))
  {
    hide *;
    LayerItemIs(c, l, k);
    ItemPlace(c, l, k);
    var i, item := 9 * l + 1 + k, LayerItems(c, l)[k];
    ItemLoads(src, SourcePlan(c), i);
    LayerItemLoads(c, src, l, k);
    PlanConvertible(c, i);
    ItemTensor(f, c, src, item, item.source);
    LoadedSize(src, item);
    ConvertedAt(f, c, src, SourcePlan(c), i);
    LaidIs(c, src, l, k, item);
  }

  lemma {:induction false} LaidIs(c: Config, src: Source, l: nat, k: nat, item: SourceItem)
    requires Accepted(c) && c.nHeads != 0 && k < 9 && item.source == SourceOf(l, SourceSuffix(k)) && item.sourceShape == SourceShape(c, k)
    requires (item.gqaExpand <==> (k == 2 || k == 3) && c.nKvHeads != c.nHeads) && (item.transpose <==> k != 0 && k != 5)
    requires |Values(src, item.source)| == Product(item.sourceShape)
    ensures Laid(c, src, item, item.source) == Image(c, src, l, k)
  {
    if k == 2 || k == 3 {
      KvLaid(c, src, item);
    }
    hide Accepted;
    hide KvRows;
    hide Spread;
    hide Turned;
    hide Values;
    hide Product;
    hide SourceSuffix;
    hide SourceOf;
  }

  lemma {:induction false} PlanConvertible(c: Config, i: nat)
    requires Accepted(c) && i < |NamePlan(c)|
    ensures c.nHeads != 0 && |SourcePlan(c)| == |NamePlan(c)| && Convertible(c, SourcePlan(c)[i])
  {
    PlansAgree(c, i);
    hide SourcePlan;
    hide NamePlan;
    hide Convertible;
  }

  lemma {:induction false} KvLaid(c: Config, src: Source, item: SourceItem)
    requires Accepted(c) && c.nHeads != 0 && item.sourceShape == [KvRows(c), c.dModel] && item.transpose
    requires (item.gqaExpand <==> c.nKvHeads != c.nHeads) && |Values(src, item.source)| == Product(item.sourceShape)
    ensures Laid(c, src, item, item.source) == Spread(c, src, item.source)
  {
    ProductOfTwo(item.sourceShape);
    if c.nKvHeads == c.nHeads {
      SpreadUngrouped(c, src, item.source);
    }
    hide Accepted;
    hide Spread;
    hide Turned;
  }

  lemma {:induction false} LayerIsConverted(f: F32, c: Config, src: Source, l: nat)
    requires Accepted(c) && WellSized(src) && Loadable(src, SourcePlan(c)) && ConvertAll(f, c, src, SourcePlan(c)).Ok?
    requires l < LayerCount(c)
    ensures c.nHeads != 0 && 9 * l + 9 < |ConvertAll(f, c, src, SourcePlan(c)).value|
    ensures LayerConverted(f, c, src, ConvertAll(f, c, src, SourcePlan(c)).value, l)
  {
    ItemPlace(c, l, 8);
    hide *;
    var ts := ConvertAll(f, c, src, SourcePlan(c)).value;
    forall k | 0 <= k < 9
      ensures ts[9 * l + 1 + k] == Stored(f, TargetOf(l, TargetSuffix(k)), TargetShape(c, k), Image(c, src, l, k))
    {
      LayerTensor(f, c, src, l, k);
    }
    assert LayerConverted(f, c, src, ts, l) by { LayerConvertedIs(f, c, src, ts, l); }
  }

  lemma {:induction false} LayerConvertedIs(f: F32, c: Config, src: Source, ts: seq<Tensor>, l: nat)
    requires c.nHeads != 0 && 9 * l + 9 < |ts|
    requires forall k :: 0 <= k < 9 ==> ts[9 * l + 1 + k] == Stored(f, TargetOf(l, TargetSuffix(k)), TargetShape(c, k), Image(c, src, l, k))
    ensures LayerConverted(f, c, src, ts, l)
  {
    hide Stored;
    hide TargetOf;
    hide TargetSuffix;
    hide TargetShape;
    hide Image;
  }

  lemma {:induction false} OutersConverted(f: F32, c: Config, src: Source)
    requires Accepted(c) && WellSized(src) && Loadable(src, SourcePlan(c)) && ConvertAll(f, c, src, SourcePlan(c)).Ok?
    ensures c.nLayers >= 0 && |ConvertAll(f, c, src, SourcePlan(c)).value| == 9 * c.nLayers + 3
    ensures OuterConverted(f, c, src, ConvertAll(f, c, src, SourcePlan(c)).value)
  {
    KvRowsAre(c);
    OuterSources(c);
    var p, n := SourcePlan(c), 9 * c.nLayers;
    assert LoadItem(src, p[0]).Ok? && LoadItem(src, p[n + 1]).Ok? && LoadItem(src, p[n + 2]).Ok?;
    LoadsIff(c, src, p[0]);
    LoadsIff(c, src, p[n + 1]);
    HeadLoadsIff(c, src, p[n + 2]);
    hide Accepted;
    hide WellSized;
    hide SourcePlan;
    hide ConvertAll;
    hide LoadItem;
    hide Convertible;
    PlanConvertible(c, 0);
    PlanConvertible(c, n + 1);
    PlanConvertible(c, n + 2);
    ItemTensor(f, c, src, p[0], "model.embed_tokens.weight");
    ItemTensor(f, c, src, p[n + 1], "model.norm.weight");
    ItemTensor(f, c, src, p[n + 2], HeadName(src));
    ConvertedAt(f, c, src, p, 0);
    ConvertedAt(f, c, src, p, n + 1);
    ConvertedAt(f, c, src, p, n + 2);
  }

  /** The conversion, by name: for an accepted configuration it succeeds exactly on complete sources, and then the
      artifact holds under every name the f32 image of the source tensor of the matching name, kept, turned over, or
      spread over the query heads. */
  lemma {:induction false} ConvertedByName(f: F32, c: Config, src: Source)
    requires Accepted(c) && WellSized(src)
    ensures c.nHeads != 0 && c.nLayers > 0
    ensures ConvertAll(f, c, src, SourcePlan(c)).Ok? <==> Complete(c, src)
    ensures ConvertAll(f, c, src, SourcePlan(c)).Ok? ==>
              var ts := ConvertAll(f, c, src, SourcePlan(c)).value;
              && |ts| == 9 * c.nLayers + 3 && OuterConverted(f, c, src, ts)
              && forall l :: 0 <= l < c.nLayers ==> LayerConverted(f, c, src, ts, l)
  {
    KvRowsAre(c);
    ConversionIffLoadable(f, c, src);
    LoadableIffComplete(c, src);
    hide Accepted;
    hide WellSized;
    hide Loadable;
    hide SourcePlan;
    hide ConvertAll;
    hide AllMade;
    hide Complete;
    hide LayerConverted;
    hide OuterConverted;
    if ConvertAll(f, c, src, SourcePlan(c)).Ok? {
      OutersConverted(f, c, src);
      forall l | 0 <= l < c.nLayers
        ensures LayerConverted(f, c, src, ConvertAll(f, c, src, SourcePlan(c)).value, l)
      {
        LayerIsConverted(f, c, src, l);
      }
    }
  }
}
