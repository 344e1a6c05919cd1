module TensorPlan {
  // The converter's configuration check, its two tensor plans, and the conversion of source tensors.

  import opened Common
  import opened Bytes
  import opened Decimal
  import opened Quant
  import opened QuantCodec
  import Layout

  datatype Config = Config(
    vocabSize: int, nLayers: int, nHeads: int, nKvHeads: int, dModel: int, dFf: int,
    maxSeqLen: int, ropeDim: int, nTiles: int, shardCount: int)

  const DTYPE_F32 := 1
  const DTYPE_Q8 := 2
  const DTYPE_Q4 := 3
  const Q4_GROUP_SIZE := 32

  // ------------------------------------------------------------- validation

  /** Python's `//`. */
  function FloorDiv(a: int, b: int): int
    requires b != 0
  {
    if b > 0 then a / b else (-a) / (-b)
  }

  function Complain(bad: bool, message: string): seq<string> {
    if bad then [message] else []
  }

  /** `validate_att1_config`: the list of error messages.  A zero n_heads divides by zero before any
      message is produced. */
  function ConfigErrors(c: Config): seq<string>
    requires c.nHeads != 0
  {
    Complain(c.dModel % c.nHeads != 0, "d_model must be divisible by n_heads")
    + (if c.nKvHeads <= 0 then ["n_kv_heads must be > 0"]
       else Complain(c.nHeads % c.nKvHeads != 0, "n_heads must be divisible by n_kv_heads"))
    + Complain(c.ropeDim > FloorDiv(c.dModel, c.nHeads), "rope_dim must be <= head_dim")
    + Complain(c.ropeDim % 2 != 0, "rope_dim must be even")
    + Complain(c.vocabSize <= 0, "vocab_size must be > 0")
    + Complain(c.nLayers <= 0, "n_layers must be > 0")
    + Complain(c.nHeads <= 0, "n_heads must be > 0")
    + Complain(c.dModel <= 0, "d_model must be > 0")
    + Complain(c.dFf <= 0, "d_ff must be > 0")
    + Complain(c.maxSeqLen <= 0, "max_seq_len must be > 0")
  }

  predicate Accepted(c: Config) {
    c.nHeads != 0 && |ConfigErrors(c)| == 0
  }

  /** Validation accepts exactly the configurations whose heads divide up the model. */
  lemma {:induction false} AcceptedIff(c: Config)
    ensures Accepted(c) <==>
      && c.nHeads > 0 && c.dModel > 0 && c.dModel % c.nHeads == 0
      && c.nKvHeads > 0 && c.nHeads % c.nKvHeads == 0
      && c.ropeDim <= c.dModel / c.nHeads && c.ropeDim % 2 == 0
      && c.vocabSize > 0 && c.nLayers > 0 && c.dFf > 0 && c.maxSeqLen > 0
  {
    hide FloorDiv;
    if c.nHeads > 0 {
      assert FloorDiv(c.dModel, c.nHeads) == c.dModel / c.nHeads by {
        FloorDivPositive(c.dModel, c.nHeads);
      }
    }
  }

  lemma {:induction false} FloorDivPositive(a: int, b: int)
    requires b > 0
    ensures FloorDiv(a, b) == a / b
  {
  }

  // ------------------------------------------------------------------ plans

  type Shape = seq<int>

  function Product(s: Shape): int {
    if |s| == 0 then 1 else Product(s[..|s| - 1]) * s[|s| - 1]
  }

  datatype PlanEntry = PlanEntry(name: string, shape: Shape)

  function LayerName(layer: nat, suffix: string): string {
    "layers." + Digits(layer) + suffix
  }

  function LayerEntries(c: Config, layer: nat): (es: seq<PlanEntry>)
    ensures |es| == 9
  {
    var d, ff := c.dModel, c.dFf;
    [PlanEntry(LayerName(layer, ".attention_norm.weight"), [d]),
     PlanEntry(LayerName(layer, ".attention.wq.weight"), [d, d]),
     PlanEntry(LayerName(layer, ".attention.wk.weight"), [d, d]),
     PlanEntry(LayerName(layer, ".attention.wv.weight"), [d, d]),
     PlanEntry(LayerName(layer, ".attention.wo.weight"), [d, d]),
     PlanEntry(LayerName(layer, ".ffn_norm.weight"), [d]),
     PlanEntry(LayerName(layer, ".ffn.w_gate.weight"), [d, ff]),
     PlanEntry(LayerName(layer, ".ffn.w_up.weight"), [d, ff]),
     PlanEntry(LayerName(layer, ".ffn.w_down.weight"), [ff, d])]
  }

  /** What follows the layer number in the name of a layer's k-th tensor. */
  function Suffix(k: nat): (s: string)
    requires k < 9
    ensures 1 <= |s| <= 22 && s[0] == '.' && s[|s| - 1] == 't'
  {
    match k
    case 0 => ".attention_norm.weight"
    case 1 => ".attention.wq.weight"
    case 2 => ".attention.wk.weight"
    case 3 => ".attention.wv.weight"
    case 4 => ".attention.wo.weight"
    case 5 => ".ffn_norm.weight"
    case 6 => ".ffn.w_gate.weight"
    case 7 => ".ffn.w_up.weight"
    case _ => ".ffn.w_down.weight"
  }

  lemma {:induction false} LayerEntryName(c: Config, layer: nat, k: nat)
    requires k < 9
    ensures LayerEntries(c, layer)[k].name == LayerName(layer, Suffix(k))
    ensures 1 <= |LayerEntries(c, layer)[k].shape| <= 2
  {
    hide LayerName;
  }

  /** The entries of layer l are the nine from position 9 l on. */
  lemma {:induction false} EntryOfLayer(c: Config, n: nat, i: nat)
    requires i < 9 * n
    ensures EntriesUpTo(c, n)[i] == LayerEntries(c, i / 9)[i % 9]
  {
    hide LayerEntries;
    if i < 9 * (n - 1) {
      EntryOfLayer(c, n - 1, i);
    }
  }

  function EntriesUpTo(c: Config, n: nat): (p: seq<PlanEntry>)
    ensures |p| == 9 * n
  {
    if n == 0 then [] else EntriesUpTo(c, n - 1) + LayerEntries(c, n - 1)
  }

  /** How many layers `range(n_layers)` visits. */
  function LayerCount(c: Config): nat {
    if c.nLayers < 0 then 0 else c.nLayers
  }

  /** `tensor_name_plan`. */
  function NamePlan(c: Config): (p: seq<PlanEntry>)
    ensures |p| == 3 + 9 * LayerCount(c)
  {
    [PlanEntry("tok_embeddings.weight", [c.vocabSize, c.dModel])]
    + EntriesUpTo(c, LayerCount(c))
    + [PlanEntry("output_norm.weight", [c.dModel]), PlanEntry("output.weight", [c.dModel, c.vocabSize])]
  }

  datatype SourceItem = SourceItem(
    source: string, target: string, sourceShape: Shape, targetShape: Shape, transpose: bool, gqaExpand: bool)

  function SourceName(layer: nat, suffix: string): string {
    "model.layers." + Digits(layer) + suffix
  }

  function LayerItems(c: Config, layer: nat): seq<SourceItem>
    requires c.nHeads != 0
  {
    var d, ff := c.dModel, c.dFf;
    var kvDim := c.nKvHeads * FloorDiv(d, c.nHeads);
    var grouped := c.nKvHeads != c.nHeads;
    [SourceItem(SourceName(layer, ".input_layernorm.weight"), LayerName(layer, ".attention_norm.weight"), [d], [d], false, false),
     SourceItem(SourceName(layer, ".self_attn.q_proj.weight"), LayerName(layer, ".attention.wq.weight"), [d, d], [d, d], true, false),
     SourceItem(SourceName(layer, ".self_attn.k_proj.weight"), LayerName(layer, ".attention.wk.weight"), [kvDim, d], [d, d], true, grouped),
     SourceItem(SourceName(layer, ".self_attn.v_proj.weight"), LayerName(layer, ".attention.wv.weight"), [kvDim, d], [d, d], true, grouped),
     SourceItem(SourceName(layer, ".self_attn.o_proj.weight"), LayerName(layer, ".attention.wo.weight"), [d, d], [d, d], true, false),
     SourceItem(SourceName(layer, ".post_attention_layernorm.weight"), LayerName(layer, ".ffn_norm.weight"), [d], [d], false, false),
     SourceItem(SourceName(layer, ".mlp.gate_proj.weight"), LayerName(layer, ".ffn.w_gate.weight"), [ff, d], [d, ff], true, false),
     SourceItem(SourceName(layer, ".mlp.up_proj.weight"), LayerName(layer, ".ffn.w_up.weight"), [ff, d], [d, ff], true, false),
     SourceItem(SourceName(layer, ".mlp.down_proj.weight"), LayerName(layer, ".ffn.w_down.weight"), [d, ff], [ff, d], true, false)]
  }

  function ItemsUpTo(c: Config, n: nat): (p: seq<SourceItem>)
    requires c.nHeads != 0
    ensures |p| == 9 * n
  {
    if n == 0 then [] else ItemsUpTo(c, n - 1) + LayerItems(c, n - 1)
  }

  /** `llama_source_tensor_plan`. */
  function SourcePlan(c: Config): (p: seq<SourceItem>)
    requires c.nHeads != 0
    ensures |p| == 3 + 9 * LayerCount(c)
  {
    var v, d := c.vocabSize, c.dModel;
    [SourceItem("model.embed_tokens.weight", "tok_embeddings.weight", [v, d], [v, d], false, false)]
    + ItemsUpTo(c, LayerCount(c))
    + [SourceItem("model.norm.weight", "output_norm.weight", [d], [d], false, false),
       SourceItem("lm_head.weight", "output.weight", [v, d], [d, v], true, false)]
  }

  // -------------------------------------------------------------- conversion

  datatype SourceTensor = SourceTensor(shape: Shape, values: seq<real>)

  /** A safetensors file that scanned without size errors. */
  type Source = map<string, SourceTensor>

  ghost predicate WellSized(src: Source) {
    forall name :: name in src ==> |src[name].values| == Product(src[name].shape)
  }

  datatype Tensor = Tensor(name: string, shape: Shape, dtype: int, data: seq<Byte>, flags: int)

  /** `load_tensor` with an expected shape. */
  function Load(src: Source, name: string, shape: Shape): Result<seq<real>> {
    if name !in src then Err("tensor not found")
    else if src[name].shape != shape then Err("shape mismatch")
    else Ok(src[name].values)
  }

  /** A missing lm_head falls back to the embedding; any other failure stands. */
  function LoadItem(src: Source, item: SourceItem): Result<seq<real>> {
    if item.source == "lm_head.weight" && item.source !in src
    then Load(src, "model.embed_tokens.weight", item.sourceShape)
    else Load(src, item.source, item.sourceShape)
  }

  /** Bring loaded values into the target layout. */
  function Arrange(c: Config, item: SourceItem, values: seq<real>): Result<seq<real>>
    requires |values| == Product(item.sourceShape)
  {
    if (item.gqaExpand || item.transpose) && (|item.sourceShape| != 2 || item.sourceShape[0] < 0 || item.sourceShape[1] < 0)
    then Err("not a matrix")
    else if item.gqaExpand then
      ProductOfTwo(item.sourceShape);
      Layout.ExpandGqa(values, item.sourceShape[0], item.sourceShape[1], c.nHeads, c.nKvHeads)
    else if item.transpose then
      ProductOfTwo(item.sourceShape);
      Ok(Layout.Transpose(values, item.sourceShape[0], item.sourceShape[1]))
    else Ok(values)
  }

  lemma {:induction false} ProductOfTwo(s: Shape)
    requires |s| == 2
    ensures Product(s) == s[0] * s[1]
  {
    assert s[..1][..0] == [];
    assert Product(s[..1]) == 1 * s[0];
  }

  lemma {:induction false} ProductOfOne(s: Shape)
    requires |s| == 1
    ensures Product(s) == s[0]
  {
    assert s[..0] == [];
    assert Product(s[..0]) == 1;
  }

  /** `_tensor_from_values`: the count has to match the target shape. */
  function TensorFromValues(f: F32, name: string, shape: Shape, values: seq<real>): Result<Tensor> {
    if |values| != Product(shape) then Err("value count does not match shape")
    else Ok(Tensor(name, shape, DTYPE_F32, F32Bytes(f, values), 0))
  }

  function ConvertItem(f: F32, c: Config, src: Source, item: SourceItem): Result<Tensor>
    requires WellSized(src)
  {
    match LoadItem(src, item)
    case Err(e) => Err(e)
    case Ok(values) =>
      match Arrange(c, item, values)
      case Err(e) => Err(e)
      case Ok(arranged) => TensorFromValues(f, item.target, item.targetShape, arranged)
  }

  /** The f32 list: the first item that fails decides the error. */
  function ConvertAll(f: F32, c: Config, src: Source, items: seq<SourceItem>): (r: Result<seq<Tensor>>)
    requires WellSized(src)
    ensures r.Ok? ==> |r.value| == |items|
  {
    if |items| == 0 then Ok([])
    else
      match ConvertAll(f, c, src, items[..|items| - 1])
      case Err(e) => Err(e)
      case Ok(ts) =>
        match ConvertItem(f, c, src, items[|items| - 1])
        case Err(e) => Err(e)
        case Ok(t) => Ok(ts + [t])
  }

  /** `build_real_f32_tensors`. */
  method BuildRealF32(f: F32, c: Config, src: Source) returns (r: Result<seq<Tensor>>)
    requires c.nHeads != 0 && WellSized(src)
    ensures r == ConvertAll(f, c, src, SourcePlan(c))
  {
    hide *;
    var items := SourcePlan(c);
    var tensors := [];
    ConvertNone(f, c, src, items);
    for i := 0 to |items|
      invariant ConvertAll(f, c, src, items[..i]) == Ok(tensors)
    {
      ConvertNext(f, c, src, items, i);
      var t := ConvertItem(f, c, src, items[i]);
      if t.Err? {
        ErrorStays(f, c, src, items, i + 1);
        return Err(t.error);
      }
      tensors := tensors + [t.value];
    }
    TakeAll(items);
    r := Ok(tensors);
  }

  lemma {:induction false} ConvertNone(f: F32, c: Config, src: Source, items: seq<SourceItem>)
    requires WellSized(src)
    ensures ConvertAll(f, c, src, items[..0]) == Ok([])
  {
    assert items[..0] == [];
  }

  lemma {:induction false} ConvertNext(f: F32, c: Config, src: Source, items: seq<SourceItem>, i: nat)
    requires WellSized(src) && i < |items| && ConvertAll(f, c, src, items[..i]).Ok?
    ensures ConvertAll(f, c, src, items[..i + 1])
         == match ConvertItem(f, c, src, items[i])
            case Err(e) => Err(e)
            case Ok(t) => Ok(ConvertAll(f, c, src, items[..i]).value + [t])
  {
    hide ConvertItem;
    TakeNext(items, i);
  }

  lemma {:induction false} ErrorStays(f: F32, c: Config, src: Source, items: seq<SourceItem>, i: nat)
    requires WellSized(src) && i <= |items| && ConvertAll(f, c, src, items[..i]).Err?
    ensures ConvertAll(f, c, src, items) == ConvertAll(f, c, src, items[..i])
  {
    if i < |items| {
      assert items[..|items| - 1][..i] == items[..i];
      ErrorStays(f, c, src, items[..|items| - 1], i);
    } else {
      assert items[..i] == items;
    }
  }

  // ------------------------------------------------------------ quantisation

  predicate Q8Eligible(name: string, shape: Shape) {
    |shape| == 2 && name != "tok_embeddings.weight"
  }

  predicate Q4Eligible(name: string, shape: Shape) {
    |shape| == 2 && name != "tok_embeddings.weight" && shape[0] >= Q4_GROUP_SIZE && shape[0] % Q4_GROUP_SIZE == 0
  }

  datatype Format = FormatF32 | FormatQ8 | FormatQ4

  /** An f32 tensor whose payload has the size its shape demands. */
  ghost predicate F32Sized(t: Tensor) {
    Product(t.shape) >= 0 && |t.data| == 4 * Product(t.shape) && forall k :: 0 <= k < |t.shape| ==> t.shape[k] >= 0
  }

  /** The branch of `build_real_q8_tensors` / `build_real_q4_tensors` for one tensor. */
  function Quantize(f: F32, fmt: Format, t: Tensor): Tensor
    requires F32Sized(t)
  {
    if fmt == FormatQ8 && Q8Eligible(t.name, t.shape) then
      ProductOfTwo(t.shape);
      var values := ReadF32s(f, t.data, Product(t.shape));
      var inDim, outDim := t.shape[0], t.shape[1];
      Tensor(t.name, [outDim, inDim], DTYPE_Q8, Q8Data(f, Layout.Transpose(values, inDim, outDim), outDim, inDim), 0)
    else if fmt == FormatQ4 && Q4Eligible(t.name, t.shape) then
      ProductOfTwo(t.shape);
      var values := ReadF32s(f, t.data, Product(t.shape));
      var inDim, outDim := t.shape[0], t.shape[1];
      var groups := inDim / Q4_GROUP_SIZE;
      TotalGroups(outDim, groups, Q4_GROUP_SIZE, inDim);
      HalfSize(outDim * groups, Q4_GROUP_SIZE);
      Tensor(t.name, [outDim, inDim], DTYPE_Q4,
             Q4Data(f, Layout.Transpose(values, inDim, outDim), outDim * groups, Q4_GROUP_SIZE), Q4_GROUP_SIZE)
    else t
  }

  function QuantizeAll(f: F32, fmt: Format, ts: seq<Tensor>): (qs: seq<Tensor>)
    requires forall i :: 0 <= i < |ts| ==> F32Sized(ts[i])
    ensures |qs| == |ts|
  {
    seq(|ts|, i requires 0 <= i < |ts| => Quantize(f, fmt, ts[i]))
  }
}
