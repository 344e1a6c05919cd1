/** Grouped-query expansion preserves the model's meaning: the forward pass over the expanded K/V
    weights, with one K/V head per query head, returns the logits of the grouped pass. */
module GqaTheorem {
  import opened Common
  import opened LinearAlgebra
  import opened ForwardPass
  import opened Layout

  /** The K and V projections of one layer as stored in the source file, [n_kv_heads * head_dim, d_model]. */
  datatype KvSource = KvSource(k: seq<real>, v: seq<real>)

  /** A grouped model whose heads divide its width and whose K/V weights are the plain transposes of the source
      projections. */
  ghost predicate FromSource(md: Model, src: seq<KvSource>) {
    && md.Usable() && md.Divides() && |src| == md.cfg.nLayers
    && forall l :: 0 <= l < |src| ==> LayerFromSource(md, md.w.layers[l], src[l])
  }

  ghost predicate LayerFromSource(md: Model, layer: Layer, src: KvSource)
    requires md.Usable()
  {
    var d, kv := md.cfg.dModel, md.KvDim();
    && |src.k| == |src.v| == kv * d
    && layer.wk == Matrix(d, kv, Transpose(src.k, kv, d))
    && layer.wv == Matrix(d, kv, Transpose(src.v, kv, d))
  }

  /** What the converter writes for a K or V projection: the result of `ExpandGqa`. */
  ghost predicate Converted(md: Model, src: seq<real>, w: Matrix)
    requires md.Usable() && |src| == md.KvDim() * md.cfg.dModel
  {
    var d := md.cfg.dModel;
    ExpandGqa(src, md.KvDim(), d, md.cfg.nHeads, md.cfg.nKvHeads) == Ok(w.data) && w.Fits(d, d)
  }

  /** md' is md with every K/V weight replaced by its expansion and one K/V head per query head. */
  ghost predicate Expands(md: Model, src: seq<KvSource>, md': Model)
    requires FromSource(md, src)
  {
    && md'.maths == md.maths && md'.cfg == md.cfg.(nKvHeads := md.cfg.nHeads)
    && md'.w.embed == md.w.embed && md'.w.outputNorm == md.w.outputNorm && md'.w.output == md.w.output
    && |md'.w.layers| == md.cfg.nLayers
    && forall l :: 0 <= l < |src| ==> LayerExpands(md, md.w.layers[l], src[l], md'.w.layers[l])
  }

  ghost predicate LayerExpands(md: Model, layer: Layer, src: KvSource, layer': Layer)
    requires md.Usable() && LayerFromSource(md, layer, src)
  {
    && Converted(md, src.k, layer'.wk) && Converted(md, src.v, layer'.wv)
    && layer' == layer.(wk := layer'.wk, wv := layer'.wv)
  }

  lemma {:induction false} DimsHold(md: Model)
    requires md.Usable() && md.Divides()
    ensures Dims(md.cfg.dModel, md.KvDim(), md.DHead(), md.cfg.nHeads, md.cfg.nKvHeads)
  {
    md.Widths();
  }

  /** The converter never rejects the K/V projections of a usable model whose heads divide its width. */
  lemma {:induction false} ExpansionAccepted(md: Model, src: seq<real>)
    requires md.Usable() && md.Divides() && |src| == md.KvDim() * md.cfg.dModel
    ensures ExpandGqa(src, md.KvDim(), md.cfg.dModel, md.cfg.nHeads, md.cfg.nKvHeads).Ok?
    ensures md.cfg.nKvHeads != md.cfg.nHeads ==>
      ExpandGqa(src, md.KvDim(), md.cfg.dModel, md.cfg.nHeads, md.cfg.nKvHeads).value
      == Expanded(src, md.cfg.dModel, md.KvDim(), md.DHead(), md.cfg.nHeads, md.cfg.nKvHeads)
  {
    DimsHold(md);
    hide Expanded;
    hide Transpose;
    DivModUnique(md.KvDim(), md.cfg.nKvHeads, md.DHead(), 0);
  }

  /** The expanded weights are shaped like the grouped ones, at full key/value width. */
  lemma {:induction false} ExpandedShaped(md: Model, src: seq<KvSource>, md': Model)
    requires FromSource(md, src) && Expands(md, src, md')
    ensures md'.Usable() && md'.DHead() == md.DHead() && md'.KvDim() == md.cfg.dModel == md'.cfg.dModel
  {
    md.Widths();
    hide ExpandGqa;
    hide Model.DHead;
    hide Transpose;
    forall l | 0 <= l < md.cfg.nLayers
      ensures md'.LayerShaped(md'.w.layers[l])
    {
      assert md.LayerShaped(md.w.layers[l]);
      assert LayerFromSource(md, md.w.layers[l], src[l]) && LayerExpands(md, md.w.layers[l], src[l], md'.w.layers[l]);
    }
    assert md'.DHead() == md.DHead() by { SameHeads(md, md'); }
  }

  lemma {:induction false} SameHeads(md: Model, md': Model)
    requires md.cfg.nHeads > 0 && md'.cfg.nHeads == md.cfg.nHeads && md'.cfg.dModel == md.cfg.dModel
    ensures md'.DHead() == md.DHead()
  {
  }

  lemma {:induction false} ExpandedLayer(md: Model, src: seq<KvSource>, md': Model, l: nat)
    requires FromSource(md, src) && Expands(md, src, md') && l < md.cfg.nLayers
    requires md'.Usable() && md'.DHead() == md.DHead() && md'.KvDim() == md.cfg.dModel
    ensures md.LayerOk(l) == md.HeadSizeOk() && md'.LayerOk(l) == md'.HeadSizeOk()
  {
    hide ExpandGqa;
    hide Transpose;
    assert md.LayerShaped(md.w.layers[l]);
    assert LayerFromSource(md, md.w.layers[l], src[l]) && LayerExpands(md, md.w.layers[l], src[l], md'.w.layers[l]);
  }

  /** Both models run, or neither does: what can stop them is the size of their heads alone. */
  lemma {:induction false} ExpandedValid(md: Model, src: seq<KvSource>, md': Model)
    requires FromSource(md, src) && Expands(md, src, md')
    ensures md'.Usable() && md'.DHead() == md.DHead() && md'.KvDim() == md.cfg.dModel == md'.cfg.dModel
    ensures md.Valid() <==> md.cfg.nLayers == 0 || md.HeadSizeOk()
    ensures md'.Valid() <==> md.Valid()
  {
    ExpandedShaped(md, src, md');
    forall l | 0 <= l < md.cfg.nLayers
      ensures md.LayerOk(l) == md.HeadSizeOk() && md'.LayerOk(l) == md'.HeadSizeOk()
    {
      ExpandedLayer(md, src, md', l);
    }
    assert md'.cfg.nLayers == md.cfg.nLayers;
    hide *;
    ValidIff(md);
    ValidIff(md');
    assert md'.HeadSizeOk() == md.HeadSizeOk() by { SameSize(md, md'); }
  }

  lemma {:induction false} SameSize(md: Model, md': Model)
    requires md.cfg.nHeads > 0 && md'.cfg.nHeads > 0 && md'.DHead() == md.DHead()
    ensures md'.HeadSizeOk() == md.HeadSizeOk()
  {
  }

  lemma {:induction false} ValidIff(md: Model)
    requires md.Usable() && forall l :: 0 <= l < md.cfg.nLayers ==> md.LayerOk(l) == md.HeadSizeOk()
    ensures md.Valid() <==> md.cfg.nLayers == 0 || md.HeadSizeOk()
  {
    if md.cfg.nLayers > 0 {
      assert md.LayerOk(0) == md.HeadSizeOk();
    }
  }

  // ------------------------------------------------------------ projections

  /** Head h of a projection by the converted weight is its K/V head of the grouped projection. */
  lemma {:induction false} ProjectionRepeats(md: Model, x: seq<real>, src: seq<real>, w: Matrix, w': Matrix, h: nat)
    requires md.Usable() && |x| == md.cfg.dModel && h < md.cfg.nHeads
    requires |src| == md.KvDim() * md.cfg.dModel
    requires w == Matrix(md.cfg.dModel, md.KvDim(), Transpose(src, md.KvDim(), md.cfg.dModel))
    requires Converted(md, src, w')
    ensures md.cfg.nHeads * md.DHead() == md.cfg.dModel
    ensures HeadSlice(VecMat(x, w'), h, md.DHead(), md.cfg.nHeads)
         == HeadSlice(VecMat(x, w), md.KvHeadOf(h), md.DHead(), md.cfg.nKvHeads)
  {
    md.Widths();
    if md.cfg.nKvHeads == md.cfg.nHeads {
      SelfGroup(h, md.cfg.nHeads);
    } else {
      DimsHold(md);
      ExpansionAccepted(md, src);
      hide HeadSlice;
      hide Expanded;
      hide Transpose;
      HeadRepeats(x, src, md.cfg.dModel, md.KvDim(), md.DHead(), md.cfg.nHeads, md.cfg.nKvHeads, w, w', h);
    }
  }

  lemma {:induction false} SelfGroup(h: nat, n: nat)
    requires h < n
    ensures n % n == 0 && Layout.KvHeadOf(h, n, n) == h
  {
    assert n / n == 1 && n % n == 0;
  }

  lemma {:induction false} HeadRepeats(x: seq<real>, src: seq<real>, d: nat, kv: nat, dh: nat, nH: nat, nKv: nat, w: Matrix, w': Matrix, h: nat)
    requires Dims(d, kv, dh, nH, nKv) && |src| == kv * d && |x| == d && h < nH
    requires w == Matrix(d, kv, Transpose(src, kv, d))
    requires w' == Matrix(d, d, Expanded(src, d, kv, dh, nH, nKv))
    ensures HeadSlice(VecMat(x, w'), h, dh, nH) == HeadSlice(VecMat(x, w), Layout.KvHeadOf(h, nH, nKv), dh, nKv)
  {
    hide SourceRow;
    hide HeadSlice;
    hide Expanded;
    hide Transpose;
    hide VecMat;
    hide Layout.KvHeadOf;
    forall col | 0 <= col < d
      ensures VecMat(x, w')[col] == VecMat(x, w)[SourceRow(col, d, kv, dh, nH, nKv)]
    {
      ColumnRepeats(x, src, d, kv, dh, nH, nKv, w, w', col);
    }
    SlicesRepeat(VecMat(x, w'), VecMat(x, w), d, kv, dh, nH, nKv, h);
  }

  lemma {:induction false} SlicesRepeat(y': seq<real>, y: seq<real>, d: nat, kv: nat, dh: nat, nH: nat, nKv: nat, h: nat)
    requires Dims(d, kv, dh, nH, nKv) && |y'| == d && |y| == kv && h < nH
    requires forall col :: 0 <= col < d ==> y'[col] == y[SourceRow(col, d, kv, dh, nH, nKv)]
    ensures HeadSlice(y', h, dh, nH) == HeadSlice(y, Layout.KvHeadOf(h, nH, nKv), dh, nKv)
  {
    hide Layout.KvHeadOf;
    hide SourceRow;
    hide HeadSlice;
    var g := Layout.KvHeadOf(h, nH, nKv);
    var a, b := HeadSlice(y', h, dh, nH), HeadSlice(y, g, dh, nKv);
    forall i | 0 <= i < dh
      ensures a[i] == b[i]
    {
      SourceRowOf(h, i, d, kv, dh, nH, nKv);
      HeadSliceAt(y', h, dh, nH, i);
      HeadSliceAt(y, g, dh, nKv, i);
    }
  }

  lemma {:induction false} ColumnRepeats(x: seq<real>, src: seq<real>, d: nat, kv: nat, dh: nat, nH: nat, nKv: nat, w: Matrix, w': Matrix, col: nat)
    requires Dims(d, kv, dh, nH, nKv) && |src| == kv * d && |x| == d && col < d
    requires w == Matrix(d, kv, Transpose(src, kv, d))
    requires w' == Matrix(d, d, Expanded(src, d, kv, dh, nH, nKv))
    ensures VecMat(x, w')[col] == VecMat(x, w)[SourceRow(col, d, kv, dh, nH, nKv)]
  {
    hide SourceRow;
    hide Dims;
    hide Expanded;
    hide Transpose;
    var row := SourceRow(col, d, kv, dh, nH, nKv);
    forall i | 0 <= i < d
      ensures At(w', i, col) == At(w, i, row)
    {
      ExpandedColumn(src, d, kv, dh, nH, nKv, i, col);
    }
    assert Column(w', col) == Column(w, row);
  }

  // -------------------------------------------------------- cache invariant

  /** Every cached key and value of the expanded run is the grouped one repeated per query head. */
  ghost predicate Repeats(md: Model, cache: seq<KV>, cache': seq<KV>)
    requires md.Usable() && md.cfg.nHeads * md.DHead() == md.cfg.dModel
    requires CacheShaped(cache, md.KvDim()) && CacheShaped(cache', md.cfg.dModel)
  {
    && |cache'| == |cache|
    && forall t, h :: 0 <= t < |cache| && 0 <= h < md.cfg.nHeads ==> EntryRepeats(md, cache[t], cache'[t], h)
  }

  ghost predicate EntryRepeats(md: Model, e: KV, e': KV, h: nat)
    requires md.Usable() && md.cfg.nHeads * md.DHead() == md.cfg.dModel && h < md.cfg.nHeads
    requires |e.k| == |e.v| == md.KvDim() && |e'.k| == |e'.v| == md.cfg.dModel
  {
    var g, dh := md.KvHeadOf(h), md.DHead();
    && HeadSlice(e'.k, h, dh, md.cfg.nHeads) == HeadSlice(e.k, g, dh, md.cfg.nKvHeads)
    && HeadSlice(e'.v, h, dh, md.cfg.nHeads) == HeadSlice(e.v, g, dh, md.cfg.nKvHeads)
  }

  lemma {:induction false} MadeEntriesRepeat(md: Model, src: seq<KvSource>, md': Model, l: nat, x: seq<real>, pos: nat, h: nat)
    requires FromSource(md, src) && Expands(md, src, md')
    requires md.Valid() && md'.Valid() && md'.DHead() == md.DHead() && md'.KvDim() == md.cfg.dModel
    requires l < md.cfg.nLayers && |x| == md.cfg.dModel && h < md.cfg.nHeads
    ensures md.cfg.nHeads * md.DHead() == md.cfg.dModel
    ensures EntryRepeats(md, MakeKV(md, l, x, pos), MakeKV(md', l, x, pos), h)
  {
    md.Widths();
    var layer, layer' := md.w.layers[l], md'.w.layers[l];
    assert LayerFromSource(md, layer, src[l]) && LayerExpands(md, layer, src[l], layer');
    assert md.LayerShaped(layer) && md'.LayerShaped(layer') && md.LayerOk(l) && md'.LayerOk(l);
    hide Converted;
    hide VecMat;
    hide Rope;
    hide HeadSlice;
    var xn := RmsNorm(md.maths, x, layer.attentionNorm);
    ProjectionRepeats(md, xn, src[l].k, layer.wk, layer'.wk, h);
    ProjectionRepeats(md, xn, src[l].v, layer.wv, layer'.wv, h);
    var dh, theta := md.DHead(), md.cfg.ropeTheta;
    RopeHeadsSlice(md.maths, VecMat(xn, layer.wk), md.cfg.nKvHeads, dh, pos, theta, md.cfg.nKvHeads, md.KvHeadOf(h));
    RopeHeadsSlice(md.maths, VecMat(xn, layer'.wk), md.cfg.nHeads, dh, pos, theta, md.cfg.nHeads, h);
  }

  lemma {:induction false} CachesRepeat(md: Model, src: seq<KvSource>, md': Model, l: nat, h: seq<seq<real>>)
    requires FromSource(md, src) && Expands(md, src, md')
    requires md.Valid() && md'.Valid() && md'.DHead() == md.DHead() && md'.KvDim() == md.cfg.dModel
    requires l < md.cfg.nLayers && Vectors(h, md.cfg.dModel)
    ensures md.cfg.nHeads * md.DHead() == md.cfg.dModel
    ensures Repeats(md, LayerCache(md, l, h), LayerCache(md', l, h))
  {
    md.Widths();
    assert md.LayerOk(l) && md'.LayerOk(l);
    hide MakeKV;
    hide EntryRepeats;
    forall t, q | 0 <= t < |h| && 0 <= q < md.cfg.nHeads
      ensures EntryRepeats(md, LayerCache(md, l, h)[t], LayerCache(md', l, h)[t], q)
    {
      MadeEntriesRepeat(md, src, md', l, h[t], t, q);
    }
  }

  // ------------------------------------------------------------- the theorem

  lemma {:induction false} ContextAgrees(md: Model, md': Model, q: seq<real>, cache: seq<KV>, cache': seq<KV>, h: nat)
    requires md.Valid() && md'.Valid() && md'.DHead() == md.DHead() && md'.KvDim() == md.cfg.dModel
    requires md'.maths == md.maths && md'.cfg == md.cfg.(nKvHeads := md.cfg.nHeads)
    requires md.cfg.nHeads * md.DHead() == md.cfg.dModel == |q| && h <= md.cfg.nHeads
    requires |cache| > 0 && CacheShaped(cache, md.KvDim()) && CacheShaped(cache', md.cfg.dModel)
    requires Repeats(md, cache, cache')
    ensures Context(md, q, cache, h) == Context(md', q, cache', h)
  {
    hide OneHead;
    hide Repeats;
    if h > 0 {
      ContextAgrees(md, md', q, cache, cache', h - 1);
      OneHeadAgrees(md, md', q, cache, cache', h - 1);
    }
  }

  lemma {:induction false} OneHeadAgrees(md: Model, md': Model, q: seq<real>, cache: seq<KV>, cache': seq<KV>, h: nat)
    requires md.Valid() && md'.Valid() && md'.DHead() == md.DHead() && md'.KvDim() == md.cfg.dModel
    requires md'.maths == md.maths && md'.cfg == md.cfg.(nKvHeads := md.cfg.nHeads)
    requires md.cfg.nHeads * md.DHead() == md.cfg.dModel == |q| && h < md.cfg.nHeads
    requires |cache| > 0 && CacheShaped(cache, md.KvDim()) && CacheShaped(cache', md.cfg.dModel)
    requires Repeats(md, cache, cache')
    ensures OneHead(md, q, cache, h) == OneHead(md', q, cache', h)
  {
    SelfGroup(h, md.cfg.nHeads);
    hide HeadSlice;
    hide HeadContext;
    var g, dh := md.KvHeadOf(h), md.DHead();
    forall t | 0 <= t < |cache|
      ensures KeysOf(cache', h, dh, md.cfg.nHeads)[t] == KeysOf(cache, g, dh, md.cfg.nKvHeads)[t]
      ensures ValuesOf(cache', h, dh, md.cfg.nHeads)[t] == ValuesOf(cache, g, dh, md.cfg.nKvHeads)[t]
    {
      assert EntryRepeats(md, cache[t], cache'[t], h);
    }
    assert KeysOf(cache', h, dh, md.cfg.nHeads) == KeysOf(cache, g, dh, md.cfg.nKvHeads);
    assert ValuesOf(cache', h, dh, md.cfg.nHeads) == ValuesOf(cache, g, dh, md.cfg.nKvHeads);
  }

  lemma {:induction false} BlockAgrees(md: Model, src: seq<KvSource>, md': Model, l: nat, h: seq<seq<real>>)
    requires FromSource(md, src) && Expands(md, src, md')
    requires md.Valid() && md'.Valid() && md'.DHead() == md.DHead() && md'.KvDim() == md.cfg.dModel
    requires l < md.cfg.nLayers && Vectors(h, md.cfg.dModel) && |h| > 0
    ensures md.LayerOk(l) && md'.LayerOk(l)
    ensures Block(md, l, h[|h| - 1], LayerCache(md, l, h)) == Block(md', l, h[|h| - 1], LayerCache(md', l, h))
  {
    CachesRepeat(md, src, md', l, h);
    assert md.LayerOk(l) && md'.LayerOk(l);
    assert LayerExpands(md, md.w.layers[l], src[l], md'.w.layers[l]);
    hide LayerCache;
    hide LayerExpands;
    hide RopeHeads;
    hide VecMat;
    hide Context;
    hide Repeats;
    var x := h[|h| - 1];
    var q := MakeQ(md, l, x, |h| - 1);
    assert q == MakeQ(md', l, x, |h| - 1);
    ContextAgrees(md, md', q, LayerCache(md, l, h), LayerCache(md', l, h), md.cfg.nHeads);
  }

  lemma {:induction false} HiddenAgrees(md: Model, src: seq<KvSource>, md': Model, tokens: seq<nat>, l: nat)
    requires FromSource(md, src) && Expands(md, src, md')
    requires md.Valid() && md'.Valid() && md'.DHead() == md.DHead() && md'.KvDim() == md.cfg.dModel
    requires InVocabulary(md.cfg, tokens) && l <= md.cfg.nLayers
    ensures Hidden(md, tokens, l) == Hidden(md', tokens, l)
  {
    hide Hidden;
    hide LayerExpands;
    hide LayerFromSource;
    hide Model.LayerShaped;
    hide Model.DHead;
    hide Model.LayerOk;
    if l == 0 {
      EmbeddingAgrees(md, md', tokens);
    } else {
      HiddenAgrees(md, src, md', tokens, l - 1);
      HiddenAgreesNext(md, src, md', tokens, l - 1);
    }
  }

  lemma {:induction false} HiddenAgreesNext(md: Model, src: seq<KvSource>, md': Model, tokens: seq<nat>, l: nat)
    requires FromSource(md, src) && Expands(md, src, md')
    requires md.Valid() && md'.Valid() && md'.DHead() == md.DHead() && md'.KvDim() == md.cfg.dModel
    requires InVocabulary(md.cfg, tokens) && l < md.cfg.nLayers
    requires Hidden(md, tokens, l) == Hidden(md', tokens, l)
    ensures Hidden(md, tokens, l + 1) == Hidden(md', tokens, l + 1)
  {
    hide Hidden;
    hide LayerExpands;
    hide LayerFromSource;
    hide Model.LayerShaped;
    hide Model.DHead;
    var after, after' := Hidden(md, tokens, l + 1), Hidden(md', tokens, l + 1);
    forall t | 0 <= t < |tokens|
      ensures after[t] == after'[t]
    {
      HiddenAgreesAt(md, src, md', tokens, l, t);
    }
  }

  lemma {:induction false} EmbeddingAgrees(md: Model, md': Model, tokens: seq<nat>)
    requires md.LayersOk(0) && md'.LayersOk(0) && InVocabulary(md.cfg, tokens) && InVocabulary(md'.cfg, tokens)
    requires md'.w.embed == md.w.embed
    ensures Hidden(md, tokens, 0) == Hidden(md', tokens, 0)
  {
  }

  lemma {:induction false} HiddenAgreesAt(md: Model, src: seq<KvSource>, md': Model, tokens: seq<nat>, l: nat, t: nat)
    requires FromSource(md, src) && Expands(md, src, md')
    requires md.Valid() && md'.Valid() && md'.DHead() == md.DHead() && md'.KvDim() == md.cfg.dModel
    requires InVocabulary(md.cfg, tokens) && l < md.cfg.nLayers && t < |tokens|
    requires Hidden(md, tokens, l) == Hidden(md', tokens, l)
    ensures Hidden(md, tokens, l + 1)[t] == Hidden(md', tokens, l + 1)[t]
  {
    hide Hidden;
    hide Block;
    hide LayerCache;
    hide LayerFromSource;
    hide LayerExpands;
    var h := Hidden(md, tokens, l);
    assert h[..t + 1][t] == h[t];
    HiddenStep(md, tokens, l, t);
    HiddenStep(md', tokens, l, t);
    BlockAgrees(md, src, md', l, h[..t + 1]);
  }

  /** After the prompt, layer l's cache in md' is layer l's cache in md, each head repeated over its group. */
  ghost predicate CacheRepeats(md: Model, md': Model, tokens: seq<nat>, l: nat)
    requires md.Valid() && md'.Valid() && InVocabulary(md.cfg, tokens) && InVocabulary(md'.cfg, tokens)
    requires md'.KvDim() == md.cfg.dModel == md.cfg.nHeads * md.DHead()
  {
    && l < md.cfg.nLayers && md.LayerOk(l) && l < md'.cfg.nLayers && md'.LayerOk(l)
    && Repeats(md, LayerCache(md, l, Hidden(md, tokens, l)), LayerCache(md', l, Hidden(md', tokens, l)))
  }

  /** For every configuration, weights and prompt the expanded model runs exactly when the grouped one does, and then
      it returns the grouped model's logits and each of its caches is the grouped cache repeated per query head. */
  lemma {:induction false} GqaExpansionPreservesMeaning(md: Model, src: seq<KvSource>, md': Model, tokens: seq<nat>)
    requires FromSource(md, src) && Expands(md, src, md') && InVocabulary(md.cfg, tokens)
    ensures md.Valid() <==> md'.Valid()
    ensures md'.Usable() && md'.KvDim() == md.cfg.dModel == md.cfg.nHeads * md.DHead()
    ensures md.Valid() ==>
              && Logits(md', tokens) == Logits(md, tokens)
              && forall l :: 0 <= l < md.cfg.nLayers ==> CacheRepeats(md, md', tokens, l)
  {
    ExpandedValid(md, src, md');
    if md.Valid() {
      RunsAgree(md, src, md', tokens);
    }
  }

  lemma {:induction false} RunsAgree(md: Model, src: seq<KvSource>, md': Model, tokens: seq<nat>)
    requires FromSource(md, src) && Expands(md, src, md') && InVocabulary(md.cfg, tokens)
    requires md.Valid() && md'.Valid() && md'.DHead() == md.DHead() && md'.KvDim() == md.cfg.dModel
    ensures md.cfg.dModel == md.cfg.nHeads * md.DHead()
    ensures Logits(md', tokens) == Logits(md, tokens)
    ensures forall l :: 0 <= l < md.cfg.nLayers ==> CacheRepeats(md, md', tokens, l)
  {
    HiddenAgrees(md, src, md', tokens, md.cfg.nLayers);
    md.Widths();
    hide LayerCache;
    hide Repeats;
    hide Hidden;
    forall l | 0 <= l < md.cfg.nLayers
      ensures CacheRepeats(md, md', tokens, l)
    {
      assert md.LayerOk(l) && md'.LayerOk(l);
      HiddenAgrees(md, src, md', tokens, l);
      CachesRepeat(md, src, md', l, Hidden(md, tokens, l));
    }
  }
}
