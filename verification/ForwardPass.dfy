module ForwardPass {
  // The reference LLaMA forward pass: a token-by-token run with a key/value cache, and the
  // cacheless recurrence it has to agree with.

  import opened Common
  import opened LinearAlgebra
  import Layout

  datatype Config = Config(
    nLayers: nat, nHeads: nat, nKvHeads: int, dModel: nat, dFf: nat, vocabSize: nat, ropeTheta: real)

  datatype Layer = Layer(
    attentionNorm: seq<real>, wq: Matrix, wk: Matrix, wv: Matrix, wo: Matrix,
    ffnNorm: seq<real>, wGate: Matrix, wUp: Matrix, wDown: Matrix)

  datatype Weights = Weights(embed: Matrix, layers: seq<Layer>, outputNorm: seq<real>, output: Matrix)

  /** The rotated key and the value that one position contributes to one layer's cache. */
  datatype KV = KV(k: seq<real>, v: seq<real>)

  datatype Model = Model(maths: Maths, cfg: Config, w: Weights) {

    function DHead(): nat
      requires cfg.nHeads > 0
    {
      cfg.dModel / cfg.nHeads
    }

    /** The group check at the top of the pass. */
    predicate GroupsSupported() {
      cfg.nHeads > 0 && cfg.nKvHeads > 0 && cfg.nHeads % cfg.nKvHeads == 0
    }

    function KvDim(): nat
      requires GroupsSupported()
    {
      cfg.nKvHeads * DHead()
    }

    function KvHeadOf(h: nat): (g: nat)
      requires GroupsSupported() && h < cfg.nHeads
      ensures g < cfg.nKvHeads
    {
      Layout.KvHeadOf(h, cfg.nHeads, cfg.nKvHeads)
    }

    /** Array shapes numpy insists on. */
    ghost predicate LayerShaped(l: Layer) {
      var d := cfg.dModel;
      && |l.attentionNorm| == |l.ffnNorm| == d
      && l.wq.Fits(d, d) && l.wo.Fits(d, d)
      && l.wk.Fits(d, l.wk.cols) && l.wv.Fits(d, l.wv.cols)
      && l.wGate.Fits(d, cfg.dFf) && l.wUp.Fits(d, cfg.dFf) && l.wDown.Fits(cfg.dFf, d)
    }

    ghost predicate Shaped() {
      && cfg.dModel > 0
      && |w.layers| == cfg.nLayers
      && (forall l :: 0 <= l < cfg.nLayers ==> LayerShaped(w.layers[l]))
      && w.embed.Fits(cfg.vocabSize, cfg.dModel)
      && |w.outputNorm| == cfg.dModel && w.output.Fits(cfg.dModel, cfg.vocabSize)
    }

    /** RoPE indexes past the end of an odd head, and a head without elements divides by zero. */
    predicate HeadSizeOk()
      requires cfg.nHeads > 0
    {
      DHead() > 0 && DHead() % 2 == 0
    }

    /** What can stop the pass inside a layer: the K/V width check, and the head size. */
    predicate LayerOk(l: nat)
      requires GroupsSupported() && l < |w.layers|
    {
      w.layers[l].wk.cols == KvDim() && w.layers[l].wv.cols == KvDim() && HeadSizeOk()
    }

    ghost predicate Usable() {
      Shaped() && GroupsSupported()
    }

    /** Nothing stops the pass in the first n layers. */
    ghost predicate LayersOk(n: nat) {
      Usable() && n <= cfg.nLayers && forall l :: 0 <= l < n ==> LayerOk(l)
    }

    ghost predicate Valid() {
      LayersOk(cfg.nLayers)
    }

    /** The heads use up the model width. */
    predicate Divides() {
      cfg.nHeads > 0 && cfg.nHeads * DHead() == cfg.dModel
    }

    lemma {:induction false} Widths()
      requires cfg.nHeads > 0
      ensures cfg.nHeads * DHead() <= cfg.dModel
      ensures Divides() <==> cfg.dModel % cfg.nHeads == 0
    {
    }
  }

  ghost predicate InVocabulary(cfg: Config, tokens: seq<nat>) {
    forall t :: 0 <= t < |tokens| ==> tokens[t] < cfg.vocabSize
  }

  // ------------------------------------------------------------------ heads

  /** Head h of a vector that begins with n heads of width dh. */
  function HeadSlice(v: seq<real>, h: nat, dh: nat, n: nat): (s: seq<real>)
    requires n * dh <= |v| && h < n
    ensures |s| == dh
  {
    FlatRowBound(h, n, dh);
    v[h * dh..h * dh + dh]
  }

  lemma {:induction false} HeadSliceAt(v: seq<real>, h: nat, dh: nat, n: nat, i: nat)
    requires n * dh <= |v| && h < n && i < dh
    ensures h * dh + i < |v| && HeadSlice(v, h, dh, n)[i] == v[h * dh + i]
  {
    FlatRowBound(h, n, dh);
  }

  /** The first h heads, each rotated for the given position. */
  function RopeHeads(m: Maths, v: seq<real>, n: nat, dh: nat, pos: nat, theta: real, h: nat): (r: seq<real>)
    requires n * dh <= |v| && h <= n && dh % 2 == 0
    ensures |r| == h * dh
  {
    if h == 0 then []
    else
      FlatRowBound(h - 1, n, dh);
      RopeHeads(m, v, n, dh, pos, theta, h - 1) + Rope(m, HeadSlice(v, h - 1, dh, n), pos, theta)
  }

  lemma {:induction false} RopeHeadsSlice(m: Maths, v: seq<real>, n: nat, dh: nat, pos: nat, theta: real, h: nat, k: nat)
    requires n * dh <= |v| && k < h <= n && dh % 2 == 0
    ensures HeadSlice(RopeHeads(m, v, n, dh, pos, theta, h), k, dh, h) == Rope(m, HeadSlice(v, k, dh, n), pos, theta)
  {
    var prefix := RopeHeads(m, v, n, dh, pos, theta, h - 1);
    var last := Rope(m, HeadSlice(v, h - 1, dh, n), pos, theta);
    FlatRowBound(h - 1, n, dh);
    assert RopeHeads(m, v, n, dh, pos, theta, h) == prefix + last;
    if k < h - 1 {
      RopeHeadsSlice(m, v, n, dh, pos, theta, h - 1, k);
      SliceOfConcat(prefix, last, k, dh, h - 1);
    } else {
      assert (prefix + last)[k * dh..k * dh + dh] == last;
    }
  }

  lemma {:induction false} SliceOfConcat(a: seq<real>, b: seq<real>, k: nat, dh: nat, n: nat)
    requires |a| == n * dh && |b| == dh && k < n
    ensures |a + b| == (n + 1) * dh
    ensures HeadSlice(a + b, k, dh, n + 1) == HeadSlice(a, k, dh, n)
  {
    FlatRowBound(n, n + 1, dh);
    FlatRowBound(k, n, dh);
  }

  // -------------------------------------------------------------- attention

  /** One query head against the keys and values of its key/value head. */
  function HeadContext(m: Maths, q: seq<real>, keys: seq<seq<real>>, values: seq<seq<real>>): (c: seq<real>)
    requires |keys| == |values| > 0
    requires forall t :: 0 <= t < |keys| ==> |keys[t]| == |values[t]| == |q|
    ensures |c| == |q|
  {
    var probs := Softmax(m, Scores(m, q, keys));
    seq(|q|, i requires 0 <= i < |q| => RSum(Weighted(probs, values, i, |q|)))
  }

  function Scores(m: Maths, q: seq<real>, keys: seq<seq<real>>): (s: seq<real>)
    requires forall t :: 0 <= t < |keys| ==> |keys[t]| == |q|
    ensures |s| == |keys|
  {
    var scale := 1.0 / m.sqrt(|q| as real);
    seq(|keys|, t requires 0 <= t < |keys| => Dot(q, keys[t]) * scale)
  }

  function Weighted(probs: seq<real>, values: seq<seq<real>>, i: nat, dh: nat): (s: seq<real>)
    requires |probs| == |values| && i < dh
    requires forall t :: 0 <= t < |values| ==> |values[t]| == dh
    ensures |s| == |values|
  {
    seq(|values|, t requires 0 <= t < |values| => probs[t] * values[t][i])
  }

  ghost predicate CacheShaped(cache: seq<KV>, kvDim: nat) {
    forall t :: 0 <= t < |cache| ==> |cache[t].k| == |cache[t].v| == kvDim
  }

  function KeysOf(cache: seq<KV>, h: nat, dh: nat, n: nat): (s: seq<seq<real>>)
    requires CacheShaped(cache, n * dh) && h < n
    ensures |s| == |cache| && forall t :: 0 <= t < |s| ==> |s[t]| == dh
  {
    seq(|cache|, t requires 0 <= t < |cache| => HeadSlice(cache[t].k, h, dh, n))
  }

  function ValuesOf(cache: seq<KV>, h: nat, dh: nat, n: nat): (s: seq<seq<real>>)
    requires CacheShaped(cache, n * dh) && h < n
    ensures |s| == |cache| && forall t :: 0 <= t < |s| ==> |s[t]| == dh
  {
    seq(|cache|, t requires 0 <= t < |cache| => HeadSlice(cache[t].v, h, dh, n))
  }

  /** The context vector of the first h query heads. */
  function Context(md: Model, q: seq<real>, cache: seq<KV>, h: nat): (c: seq<real>)
    requires md.Usable() && |q| == md.cfg.dModel && h <= md.cfg.nHeads
    requires |cache| > 0 && CacheShaped(cache, md.KvDim())
    ensures |c| == h * md.DHead()
  {
    if h == 0 then []
    else
      md.Widths();
      FlatRowBound(h - 1, md.cfg.nHeads, md.DHead());
      Context(md, q, cache, h - 1) + OneHead(md, q, cache, h - 1)
  }

  function Zeros(n: nat): (z: seq<real>)
    ensures |z| == n
  {
    seq(n, i => 0.0)
  }

  /** The context vector: what the heads do not reach stays zero. */
  function FullContext(md: Model, q: seq<real>, cache: seq<KV>): (c: seq<real>)
    requires md.Usable() && |q| == md.cfg.dModel
    requires |cache| > 0 && CacheShaped(cache, md.KvDim())
    ensures |c| == md.cfg.dModel
  {
    md.Widths();
    Context(md, q, cache, md.cfg.nHeads) + Zeros(md.cfg.dModel - md.cfg.nHeads * md.DHead())
  }

  function OneHead(md: Model, q: seq<real>, cache: seq<KV>, h: nat): (c: seq<real>)
    requires md.Usable() && |q| == md.cfg.dModel && h < md.cfg.nHeads
    requires |cache| > 0 && CacheShaped(cache, md.KvDim())
    ensures |c| == md.DHead()
  {
    md.Widths();
    var g := md.KvHeadOf(h);
    HeadContext(md.maths, HeadSlice(q, h, md.DHead(), md.cfg.nHeads),
                KeysOf(cache, g, md.DHead(), md.cfg.nKvHeads), ValuesOf(cache, g, md.DHead(), md.cfg.nKvHeads))
  }

  // ------------------------------------------------------- one layer, one position

  function MakeKV(md: Model, l: nat, x: seq<real>, pos: nat): (e: KV)
    requires md.Usable() && l < md.cfg.nLayers && md.LayerOk(l) && |x| == md.cfg.dModel
    ensures |e.k| == |e.v| == md.KvDim()
  {
    var layer := md.w.layers[l];
    assert md.LayerShaped(layer) && md.LayerOk(l);
    var xNorm := RmsNorm(md.maths, x, layer.attentionNorm);
    KV(RopeHeads(md.maths, VecMat(xNorm, layer.wk), md.cfg.nKvHeads, md.DHead(), pos, md.cfg.ropeTheta, md.cfg.nKvHeads),
       VecMat(xNorm, layer.wv))
  }

  /** The query of one position, its heads rotated. */
  function MakeQ(md: Model, l: nat, x: seq<real>, pos: nat): (q: seq<real>)
    requires md.Usable() && md.HeadSizeOk() && l < md.cfg.nLayers && |x| == md.cfg.dModel
    ensures |q| == md.cfg.dModel
  {
    var layer := md.w.layers[l];
    assert md.LayerShaped(layer);
    md.Widths();
    var xNorm := RmsNorm(md.maths, x, layer.attentionNorm);
    var q := VecMat(xNorm, layer.wq);
    RopeHeads(md.maths, q, md.cfg.nHeads, md.DHead(), pos, md.cfg.ropeTheta, md.cfg.nHeads) + q[md.cfg.nHeads * md.DHead()..]
  }

  function FeedForward(md: Model, l: nat, x: seq<real>): (y: seq<real>)
    requires md.Usable() && l < md.cfg.nLayers && |x| == md.cfg.dModel
    ensures |y| == md.cfg.dModel
  {
    var layer := md.w.layers[l];
    assert md.LayerShaped(layer);
    var xNorm := RmsNorm(md.maths, x, layer.ffnNorm);
    Add(x, VecMat(SwiGlu(md.maths, VecMat(xNorm, layer.wGate), VecMat(xNorm, layer.wUp)), layer.wDown))
  }

  /** A layer's output at the last position of a cache that already holds that position. */
  function Block(md: Model, l: nat, x: seq<real>, cache: seq<KV>): (y: seq<real>)
    requires md.Usable() && md.HeadSizeOk() && l < md.cfg.nLayers && |x| == md.cfg.dModel
    requires |cache| > 0 && CacheShaped(cache, md.KvDim())
    ensures |y| == md.cfg.dModel
  {
    assert md.LayerShaped(md.w.layers[l]);
    var context := FullContext(md, MakeQ(md, l, x, |cache| - 1), cache);
    FeedForward(md, l, Add(x, VecMat(context, md.w.layers[l].wo)))
  }

  // ------------------------------------------------- the cacheless recurrence

  ghost predicate Vectors(h: seq<seq<real>>, d: nat) {
    forall t :: 0 <= t < |h| ==> |h[t]| == d
  }

  function EmbedRow(w: Matrix, tok: nat): (x: seq<real>)
    requires |w.data| == w.rows * w.cols && tok < w.rows
    ensures |x| == w.cols
  {
    FlatRowBound(tok, w.rows, w.cols);
    w.data[tok * w.cols..tok * w.cols + w.cols]
  }

  /** What a layer's cache holds when its inputs are h: entry t is made from position t alone. */
  function LayerCache(md: Model, l: nat, h: seq<seq<real>>): (c: seq<KV>)
    requires md.Usable() && l < md.cfg.nLayers && md.LayerOk(l) && Vectors(h, md.cfg.dModel)
    ensures |c| == |h| && CacheShaped(c, md.KvDim())
  {
    seq(|h|, t requires 0 <= t < |h| => MakeKV(md, l, h[t], t))
  }

  /** Causal attention layer by layer over the whole prompt, with no cache: position t of layer l
      looks at the inputs of positions 0..t of that layer. */
  function Hidden(md: Model, tokens: seq<nat>, l: nat): (h: seq<seq<real>>)
    requires md.LayersOk(l) && InVocabulary(md.cfg, tokens)
    ensures |h| == |tokens| && Vectors(h, md.cfg.dModel)
  {
    if l == 0 then
      seq(|tokens|, t requires 0 <= t < |tokens| => EmbedRow(md.w.embed, tokens[t]))
    else
      NextHidden(md, l - 1, Hidden(md, tokens, l - 1))
  }

  /** One layer over all positions. */
  function NextHidden(md: Model, l: nat, h: seq<seq<real>>): (next: seq<seq<real>>)
    requires md.LayersOk(l + 1) && Vectors(h, md.cfg.dModel)
    ensures |next| == |h| && Vectors(next, md.cfg.dModel)
  {
    seq(|h|, t requires 0 <= t < |h| => NextAt(md, l, h, t))
  }

  function NextAt(md: Model, l: nat, h: seq<seq<real>>, t: nat): (x: seq<real>)
    requires md.LayersOk(l + 1) && Vectors(h, md.cfg.dModel) && t < |h|
    ensures |x| == md.cfg.dModel
  {
    Block(md, l, h[t], LayerCache(md, l, h[..t + 1]))
  }

  /** One position of one layer of the recurrence. */
  lemma {:induction false} HiddenStep(md: Model, tokens: seq<nat>, l: nat, t: nat)
    requires md.LayersOk(l + 1) && md.LayersOk(l) && InVocabulary(md.cfg, tokens) && t < |tokens|
    ensures var h := Hidden(md, tokens, l);
            && t < |h| && Hidden(md, tokens, l + 1)[t] == NextAt(md, l, h, t)
  {
    hide Block;
    hide LayerCache;
  }

  function Head(md: Model, x: seq<real>): (y: seq<real>)
    requires md.Shaped() && |x| == md.cfg.dModel
    ensures |y| == md.cfg.vocabSize
  {
    VecMat(RmsNorm(md.maths, x, md.w.outputNorm), md.w.output)
  }

  /** The logits after the last token; none for an empty prompt. */
  function Logits(md: Model, tokens: seq<nat>): (y: Option<seq<real>>)
    requires md.Valid() && InVocabulary(md.cfg, tokens)
  {
    if |tokens| == 0 then None
    else Some(Head(md, Hidden(md, tokens, md.cfg.nLayers)[|tokens| - 1]))
  }

  /** The recurrence is causal: a prefix of the prompt has a prefix of the hidden states. */
  lemma {:induction false} HiddenPrefix(md: Model, tokens: seq<nat>, n: nat, l: nat)
    requires md.LayersOk(l) && InVocabulary(md.cfg, tokens) && n <= |tokens|
    ensures Hidden(md, tokens[..n], l) == Hidden(md, tokens, l)[..n]
  {
    hide Block;
    hide LayerCache;
    if l > 0 {
      HiddenPrefix(md, tokens, n, l - 1);
      var h, h' := Hidden(md, tokens, l - 1), Hidden(md, tokens[..n], l - 1);
      forall t | 0 <= t < n
        ensures Hidden(md, tokens[..n], l)[t] == Hidden(md, tokens, l)[t]
      {
        assert h'[..t + 1] == h[..t + 1];
      }
    }
  }

  /** So the cached keys and values of a prefix run are a prefix of those of the longer run. */
  lemma {:induction false} CachePrefix(md: Model, tokens: seq<nat>, n: nat, l: nat)
    requires md.LayersOk(l + 1) && InVocabulary(md.cfg, tokens) && n <= |tokens|
    ensures LayerCache(md, l, Hidden(md, tokens[..n], l)) == LayerCache(md, l, Hidden(md, tokens, l))[..n]
  {
    HiddenPrefix(md, tokens, n, l);
  }
}
