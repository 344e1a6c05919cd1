module ForwardRun {
  // The forward pass as the program runs it: positions outside, layers inside, caches appended to.

  import opened Common
  import opened LinearAlgebra
  import opened ForwardPass

  /** Rotate the head slices of a projection one by one. */
  method RopeHeadsByLoop(m: Maths, v: seq<real>, n: nat, dh: nat, pos: nat, theta: real) returns (out: seq<real>)
    requires n * dh <= |v| && dh % 2 == 0
    ensures out == RopeHeads(m, v, n, dh, pos, theta, n) + v[n * dh..]
  {
    hide Rope;
    out := v;
    for h := 0 to n
      invariant h * dh <= n * dh
      invariant out == RopeHeads(m, v, n, dh, pos, theta, h) + v[h * dh..]
    {
      FlatRowBound(h, n, dh);
      ghost var done := RopeHeads(m, v, n, dh, pos, theta, h);
      assert out[h * dh..h * dh + dh] == HeadSlice(v, h, dh, n);
      var slice := RopeByLoop(m, out[h * dh..h * dh + dh], pos, theta);
      out := out[..h * dh] + slice + out[h * dh + dh..];
    }
  }

  /** Accumulate the probability-weighted values of one head. */
  method AccumulateValues(probs: seq<real>, values: seq<seq<real>>, dh: nat) returns (acc: seq<real>)
    requires |probs| == |values|
    requires forall t :: 0 <= t < |values| ==> |values[t]| == dh
    ensures |acc| == dh
    ensures forall i :: 0 <= i < dh ==> acc[i] == RSum(Weighted(probs, values, i, dh))
  {
    acc := Zeros(dh);
    hide Weighted;
    hide AddScaled;
    for t := 0 to |values|
      invariant |acc| == dh
      invariant forall i :: 0 <= i < dh ==> acc[i] == RSum(Weighted(probs, values, i, dh)[..t])
    {
      ghost var before := acc;
      acc := AddScaled(acc, probs[t], values[t]);
      forall i | 0 <= i < dh
        ensures acc[i] == RSum(Weighted(probs, values, i, dh)[..t + 1])
      {
        AddScaledAt(before, probs[t], values[t], i);
        WeightedStep(probs, values, i, dh, t);
      }
    }
    forall i | 0 <= i < dh
      ensures acc[i] == RSum(Weighted(probs, values, i, dh))
    {
      var w := Weighted(probs, values, i, dh);
      assert w[..|values|] == w;
    }
  }

  /** `context[q_sl] += p * v`. */
  function AddScaled(acc: seq<real>, p: real, v: seq<real>): (r: seq<real>)
    requires |acc| == |v|
    ensures |r| == |acc|
  {
    seq(|acc|, i requires 0 <= i < |acc| => acc[i] + p * v[i])
  }

  lemma {:induction false} AddScaledAt(acc: seq<real>, p: real, v: seq<real>, i: nat)
    requires |acc| == |v| && i < |acc|
    ensures AddScaled(acc, p, v)[i] == acc[i] + p * v[i]
  {
  }

  lemma {:induction false} WeightedStep(probs: seq<real>, values: seq<seq<real>>, i: nat, dh: nat, t: nat)
    requires |probs| == |values| && i < dh && t < |values|
    requires forall t :: 0 <= t < |values| ==> |values[t]| == dh
    ensures RSum(Weighted(probs, values, i, dh)[..t + 1]) == RSum(Weighted(probs, values, i, dh)[..t]) + probs[t] * values[t][i]
  {
    var w := Weighted(probs, values, i, dh);
    assert w[..t + 1] == w[..t] + [w[t]];
    RSumSnoc(w[..t], w[t]);
  }

  method AttendHead(m: Maths, q: seq<real>, keys: seq<seq<real>>, values: seq<seq<real>>) returns (c: seq<real>)
    requires |keys| == |values| > 0
    requires forall t :: 0 <= t < |keys| ==> |keys[t]| == |values[t]| == |q|
    ensures c == HeadContext(m, q, keys, values)
  {
    hide Weighted;
    var probs := Softmax(m, Scores(m, q, keys));
    c := AccumulateValues(probs, values, |q|);
  }

  /** The body of the head loop: head h attends through the key/value head of its group. */
  method AttendAt(md: Model, q: seq<real>, cache: seq<KV>, h: nat) returns (slice: seq<real>)
    requires md.Usable() && |q| == md.cfg.dModel && h < md.cfg.nHeads
    requires |cache| > 0 && CacheShaped(cache, md.KvDim())
    ensures slice == OneHead(md, q, cache, h)
  {
    hide HeadContext;
    hide HeadSlice;
    var dh, nKv := md.DHead(), md.cfg.nKvHeads;
    var g := h / (md.cfg.nHeads / nKv);
    assert g == md.KvHeadOf(h);
    md.Widths();
    slice := AttendHead(md.maths, HeadSlice(q, h, dh, md.cfg.nHeads), KeysOf(cache, g, dh, nKv), ValuesOf(cache, g, dh, nKv));
  }

  method Attend(md: Model, q: seq<real>, cache: seq<KV>) returns (context: seq<real>)
    requires md.Usable() && |q| == md.cfg.dModel
    requires |cache| > 0 && CacheShaped(cache, md.KvDim())
    ensures context == FullContext(md, q, cache)
  {
    hide *;
    context := Zeros(md.cfg.dModel);
    var begin := 0;
    ContextNone(md, q, cache);
    for h := 0 to md.cfg.nHeads
      invariant begin == |Context(md, q, cache, h)| <= md.cfg.dModel
      invariant context == Context(md, q, cache, h) + Zeros(md.cfg.dModel - begin)
    {
      var slice := AttendAt(md, q, cache, h);
      ContextNext(md, q, cache, h);
      SpliceZeros(Context(md, q, cache, h), slice, md.cfg.dModel - begin);
      context := Splice(context, begin, slice);
      begin := begin + |slice|;
    }
    FullContextIs(md, q, cache);
  }

  lemma {:induction false} ContextNext(md: Model, q: seq<real>, cache: seq<KV>, h: nat)
    requires md.Usable() && |q| == md.cfg.dModel && h < md.cfg.nHeads
    requires |cache| > 0 && CacheShaped(cache, md.KvDim())
    ensures Context(md, q, cache, h + 1) == Context(md, q, cache, h) + OneHead(md, q, cache, h)
    ensures |Context(md, q, cache, h + 1)| <= md.cfg.dModel
  {
    hide OneHead;
    md.Widths();
    FlatRowBound(h, md.cfg.nHeads, md.DHead());
  }

  lemma {:induction false} ContextNone(md: Model, q: seq<real>, cache: seq<KV>)
    requires md.Usable() && |q| == md.cfg.dModel
    requires |cache| > 0 && CacheShaped(cache, md.KvDim())
    ensures Context(md, q, cache, 0) == [] && [] + Zeros(md.cfg.dModel) == Zeros(md.cfg.dModel)
  {
  }

  lemma {:induction false} FullContextIs(md: Model, q: seq<real>, cache: seq<KV>)
    requires md.Usable() && |q| == md.cfg.dModel
    requires |cache| > 0 && CacheShaped(cache, md.KvDim())
    ensures var c := Context(md, q, cache, md.cfg.nHeads);
            |c| <= md.cfg.dModel && FullContext(md, q, cache) == c + Zeros(md.cfg.dModel - |c|)
  {
    md.Widths();
    hide Context;
  }

  lemma {:induction false} SpliceZeros(done: seq<real>, s: seq<real>, rest: nat)
    requires |s| <= rest
    ensures Splice(done + Zeros(rest), |done|, s) == done + s + Zeros(rest - |s|)
  {
  }

  /** `context[a:a + len(s)] = s`. */
  function Splice(v: seq<real>, a: nat, s: seq<real>): (r: seq<real>)
    requires a + |s| <= |v|
    ensures |r| == |v|
  {
    v[..a] + s + v[a + |s|..]
  }

  /** One layer at one position: project, rotate, append to the cache, attend, feed forward. */
  method RunLayer(md: Model, l: nat, x: seq<real>, pos: nat, past: seq<KV>) returns (y: seq<real>, cache: seq<KV>)
    requires md.Usable() && l < md.cfg.nLayers && md.LayerOk(l)
    requires |x| == md.cfg.dModel && |past| == pos && CacheShaped(past, md.KvDim())
    ensures cache == past + [MakeKV(md, l, x, pos)]
    ensures y == Block(md, l, x, cache)
  {
    hide RopeHeads;
    hide FullContext;
    hide HeadSlice;
    md.Widths();
    var layer := md.w.layers[l];
    assert md.LayerShaped(layer);
    var theta := md.cfg.ropeTheta;
    var xNorm := RmsNorm(md.maths, x, layer.attentionNorm);
    var q := RopeHeadsByLoop(md.maths, VecMat(xNorm, layer.wq), md.cfg.nHeads, md.DHead(), pos, theta);
    var k := RopeHeadsByLoop(md.maths, VecMat(xNorm, layer.wk), md.cfg.nKvHeads, md.DHead(), pos, theta);
    cache := past + [KV(k, VecMat(xNorm, layer.wv))];
    assert cache[pos] == MakeKV(md, l, x, pos);
    var context := Attend(md, q, cache);
    var x1 := Add(x, VecMat(context, layer.wo));
    var xNorm2 := RmsNorm(md.maths, x1, layer.ffnNorm);
    var hidden := SwiGlu(md.maths, VecMat(xNorm2, layer.wGate), VecMat(xNorm2, layer.wUp));
    y := Add(x1, VecMat(hidden, layer.wDown));
  }

  ghost predicate CacheHolds(md: Model, tokens: seq<nat>, l: nat, c: seq<KV>) {
    md.LayersOk(l + 1) && InVocabulary(md.cfg, tokens) && c == LayerCache(md, l, Hidden(md, tokens, l))
  }

  /** The caches of all layers after the positions of `tokens`. */
  ghost predicate CachesHold(md: Model, tokens: seq<nat>, caches: seq<seq<KV>>) {
    |caches| == md.cfg.nLayers
    && if |tokens| == 0 then forall l :: 0 <= l < |caches| ==> caches[l] == []
       else forall l :: 0 <= l < |caches| ==> CacheHolds(md, tokens, l, caches[l])
  }

  /** The whole pass, for any width and number of heads.  The cache is returned so that its contents can be stated. */
  method Run(md: Model, tokens: seq<nat>) returns (r: Result<Option<seq<real>>>, cache: seq<seq<KV>>)
    requires md.Shaped() && InVocabulary(md.cfg, tokens)
    ensures r.Ok? <==> md.GroupsSupported() && (|tokens| == 0 || md.Valid())
    ensures r.Ok? && |tokens| > 0 ==> r.value == Logits(md, tokens)
    ensures r.Ok? && |tokens| == 0 ==> r.value == None
    ensures r.Ok? ==> CachesHold(md, tokens, cache)
  {
    cache := seq(md.cfg.nLayers, l => []);
    if md.cfg.nHeads == 0 || md.cfg.nKvHeads <= 0 || md.cfg.nHeads % md.cfg.nKvHeads != 0 {
      return Err("unsupported GQA shape"), cache;
    }
    assert md.Usable();
    var ok, logits;
    ok, logits, cache := RunPositions(md, tokens, cache);
    r := if ok then Ok(logits) else Err("unexpected K/V dim or head size");
  }

  /** The position loop. */
  method RunPositions(md: Model, tokens: seq<nat>, empty: seq<seq<KV>>)
    returns (ok: bool, logits: Option<seq<real>>, cache: seq<seq<KV>>)
    requires md.Usable() && InVocabulary(md.cfg, tokens) && CachesHold(md, [], empty)
    ensures ok <==> |tokens| == 0 || md.Valid()
    ensures ok ==> logits == (if |tokens| == 0 then None else Logits(md, tokens))
    ensures ok ==> CachesHold(md, tokens, cache)
  {
    cache := empty;
    logits := None;
    hide *;
    assert tokens[..0] == [];
    VocabularyPrefix(md.cfg, tokens, 0);
    for pos := 0 to |tokens|
      invariant InVocabulary(md.cfg, tokens[..pos])
      invariant CachesHold(md, tokens[..pos], cache)
      invariant if pos == 0 then logits == None else md.Valid() && logits == Logits(md, tokens[..pos])
    {
      VocabularyPrefix(md.cfg, tokens, pos + 1);
      TakeNext(tokens, pos);
      ok, logits, cache := RunPosition(md, tokens[..pos + 1], tokens[pos], pos, tokens[..pos], cache);
      if !ok {
        return;
      }
    }
    TakeAll(tokens);
    ok := true;
  }

  lemma {:induction false} VocabularyPrefix(cfg: Config, tokens: seq<nat>, n: nat)
    requires InVocabulary(cfg, tokens) && n <= |tokens|
    ensures InVocabulary(cfg, tokens[..n])
  {
  }

  /** One token through all layers, then the logits. */
  method RunPosition(md: Model, ghost seen: seq<nat>, token: nat, pos: nat, ghost past: seq<nat>, caches: seq<seq<KV>>)
    returns (ok: bool, logits: Option<seq<real>>, cache: seq<seq<KV>>)
    requires md.Usable() && InVocabulary(md.cfg, seen)
    requires |seen| == pos + 1 && seen[pos] == token && past == seen[..pos] && CachesHold(md, past, caches)
    ensures ok <==> md.Valid()
    ensures ok ==> logits == Logits(md, seen) && CachesHold(md, seen, cache)
  {
    var x := EmbedRow(md.w.embed, token);
    assert x == Hidden(md, seen, 0)[pos];
    hide Hidden;
    hide LayerCache;
    ok, x, cache := RunLayers(md, seen, x, pos, caches);
    logits := None;
    if ok {
      var xFinal := RmsNorm(md.maths, x, md.w.outputNorm);
      logits := Some(VecMat(xFinal, md.w.output));
    }
  }

  /** The layer loop for one token; it stops at the first layer with an unexpected K/V width, or with heads of a size
      that cannot be rotated or scored. */
  method RunLayers(md: Model, ghost seen: seq<nat>, x0: seq<real>, pos: nat, caches: seq<seq<KV>>)
    returns (ok: bool, x: seq<real>, cache: seq<seq<KV>>)
    requires md.Usable() && InVocabulary(md.cfg, seen)
    requires |seen| == pos + 1 && CachesHold(md, seen[..pos], caches)
    requires x0 == Hidden(md, seen, 0)[pos]
    ensures ok <==> md.Valid()
    ensures ok ==> x == Hidden(md, seen, md.cfg.nLayers)[pos] && CachesHold(md, seen, cache)
  {
    hide Hidden;
    hide LayerCache;
    hide Model.LayerShaped;
    hide Model.DHead;
    hide Model.LayerOk;
    hide Matrix.Fits;
    x, cache := x0, caches;
    for l := 0 to md.cfg.nLayers
      invariant |cache| == md.cfg.nLayers && md.LayersOk(l)
      invariant x == Hidden(md, seen, l)[pos]
      invariant forall k :: 0 <= k < l ==> CacheHolds(md, seen, k, cache[k])
      invariant forall k :: l <= k < |cache| ==> cache[k] == caches[k]
    {
      if !md.LayerOk(l) {
        return false, x, cache;
      }
      x, cache := Advance(md, seen, l, x, pos, cache);
    }
    ok := true;
  }

  /** One step of the layer loop, on the list of caches. */
  method Advance(md: Model, ghost seen: seq<nat>, l: nat, x: seq<real>, pos: nat, caches: seq<seq<KV>>)
    returns (y: seq<real>, after: seq<seq<KV>>)
    requires md.LayersOk(l + 1) && InVocabulary(md.cfg, seen)
    requires |seen| == pos + 1 && |caches| == md.cfg.nLayers
    requires x == Hidden(md, seen, l)[pos]
    requires if pos == 0 then caches[l] == [] else CacheHolds(md, seen[..pos], l, caches[l])
    ensures y == Hidden(md, seen, l + 1)[pos]
    ensures |after| == |caches| && CacheHolds(md, seen, l, after[l])
    ensures forall k :: 0 <= k < |caches| && k != l ==> after[k] == caches[k]
  {
    hide MakeKV;
    hide Block;
    CachePrefix(md, seen, pos, l);
    ghost var h := Hidden(md, seen, l);
    assert caches[l] == LayerCache(md, l, h)[..pos];
    var cacheL;
    y, cacheL := RunLayer(md, l, x, pos, caches[l]);
    assert h[..pos + 1] == h;
    assert cacheL == LayerCache(md, l, h);
    after := caches[l := cacheL];
  }
}
