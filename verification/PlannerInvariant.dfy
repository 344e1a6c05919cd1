/** The invariant every generator keeps: ids count up, dependencies lie behind, chain fences are exclusive. */
module PlannerInvariant {
  import opened Common
  import opened Tally
  import opened ExecutionPlan
  import opened ExecutionMapper

  // ----------------------------------------------------------- well-formedness

  /** Part of a layer's or the head's chain. */
  predicate Chained(c: ExecCommand) {
    c.spec.phase.PrefillExec? || c.spec.phase.DecodeStep? || c.spec.phase.KvAppendPhase? || c.spec.phase.KvReadPhase?
  }

  /** A spec the mapper has no objection to. */
  predicate SpecOk(s: OpSpec) {
    !s.phase.OtherPhase? && !s.op.OtherOp? && !s.op.FabricSend? && (s.op.NeedsTensor() ==> s.deps != [])
  }

  /** Command i in place: its id is its position, its dependency lies behind it, no other command shares a
      chain command's fence, and inside a chain the dependency is the command just before. */
  ghost predicate InPlace(cmds: seq<ExecCommand>, i: nat)
    requires i < |cmds|
  {
    var c := cmds[i];
    && c.id == i + 1 && SpecOk(c.spec) && c.fence >= 1
    && (c.dep == 0 || FenceSeen(cmds, i, c.dep))
    && (forall j :: 0 <= j < i && (Chained(cmds[j]) || Chained(c)) ==> cmds[j].fence != c.fence)
    && (Chained(c) && c.dep != 0 ==>
          i > 0 && Chained(cmds[i - 1]) && cmds[i - 1].layer == c.layer && cmds[i - 1].tile == c.tile && cmds[i - 1].fence == c.dep)
  }

  ghost predicate GoodGen(g: Gen) {
    && g.nextId == |g.cmds| + 1 && g.nextFence >= 1
    && (forall i :: 0 <= i < |g.cmds| ==> InPlace(g.cmds, i))
    && (forall i :: 0 <= i < |g.cmds| ==> g.cmds[i].fence < g.nextFence)
  }

  lemma {:induction false} InPlaceExtends(cmds: seq<ExecCommand>, c: ExecCommand, i: nat)
    requires i < |cmds| && InPlace(cmds, i)
    ensures InPlace(cmds + [c], i)
  {
    var all := cmds + [c];
    if cmds[i].dep != 0 {
      var j :| 0 <= j < i && cmds[j].fence == cmds[i].dep;
      assert all[j].fence == all[i].dep;
    }
    hide SpecOk;
    hide Chained;
  }

  lemma {:induction false} AppendGood(g: Gen, c: ExecCommand, nextFence: int)
    requires GoodGen(g) && InPlace(g.cmds + [c], |g.cmds|) && c.fence < nextFence && g.nextFence <= nextFence
    ensures GoodGen(Gen(g.cmds + [c], g.nextId + 1, nextFence))
  {
    hide InPlace;
    var all := g.cmds + [c];
    forall i | 0 <= i < |all|
      ensures InPlace(all, i) && all[i].fence < nextFence
    {
      if i < |g.cmds| {
        InPlaceExtends(g.cmds, c, i);
      }
    }
  }

  /** Where a chain command stands: first of its chain, or right behind its predecessor. */
  ghost predicate Links(g: Gen, tile: int, layer: int, dep: int) {
    dep == 0 || (|g.cmds| > 0 && var last := g.cmds[|g.cmds| - 1];
                 Chained(last) && last.layer == layer && last.tile == tile && last.fence == dep)
  }

  lemma {:induction false} SeenExtends(cmds: seq<ExecCommand>, c: ExecCommand, fence: int)
    requires FenceSeen(cmds, |cmds|, fence)
    ensures FenceSeen(cmds + [c], |cmds|, fence)
  {
    var j :| 0 <= j < |cmds| && cmds[j].fence == fence;
    assert (cmds + [c])[j].fence == fence;
  }

  lemma {:induction false} EmitGood(g: Gen, tile: int, layer: int, spec: OpSpec, dep: int)
    requires GoodGen(g) && SpecOk(spec) && (dep == 0 || FenceSeen(g.cmds, |g.cmds|, dep))
    requires Chained(ExecCommand(g.nextId, tile, layer, spec, g.nextFence, dep)) ==> Links(g, tile, layer, dep)
    ensures GoodGen(Emit(g, tile, layer, spec, dep))
  {
    var c := ExecCommand(g.nextId, tile, layer, spec, g.nextFence, dep);
    if dep != 0 {
      SeenExtends(g.cmds, c, dep);
    }
    hide SpecOk;
    hide FenceSeen;
    assert InPlace(g.cmds + [c], |g.cmds|);
    AppendGood(g, c, g.nextFence + 1);
  }

  /** No chain command carries this fence. */
  ghost predicate Unclaimed(g: Gen, fence: int) {
    1 <= fence < g.nextFence && forall j :: 0 <= j < |g.cmds| && Chained(g.cmds[j]) ==> g.cmds[j].fence != fence
  }

  lemma {:induction false} OnEachGood(g: Gen, layer: int, spec: OpSpec, fence: int, dep: int, n: nat)
    requires GoodGen(g) && SpecOk(spec) && Unclaimed(g, fence)
    requires n > 0 ==> dep == 0 || FenceSeen(g.cmds, |g.cmds|, dep)
    requires !Chained(ExecCommand(0, 0, layer, spec, fence, dep))
    ensures GoodGen(OnEach(g, layer, spec, fence, dep, n)) && Unclaimed(OnEach(g, layer, spec, fence, dep, n), fence)
    ensures n > 0 && dep != 0 ==> FenceSeen(OnEach(g, layer, spec, fence, dep, n).cmds, |OnEach(g, layer, spec, fence, dep, n).cmds|, dep)
    ensures n > 0 ==> FenceSeen(OnEach(g, layer, spec, fence, dep, n).cmds, |OnEach(g, layer, spec, fence, dep, n).cmds|, fence)
  {
    if n > 0 {
      OnEachGood(g, layer, spec, fence, dep, n - 1);
      var h := OnEach(g, layer, spec, fence, dep, n - 1);
      var c := ExecCommand(h.nextId, n - 1, layer, spec, fence, dep);
      OneMore(g, h, c, n - 1, dep);
    }
  }

  lemma {:induction false} OneMore(g: Gen, h: Gen, c: ExecCommand, n: nat, dep: int)
    requires GoodGen(h) && Unclaimed(h, c.fence) && SpecOk(c.spec) && !Chained(c) && c.id == h.nextId && c.dep == dep
    requires n == 0 ==> h == g
    requires dep == 0 || FenceSeen(g.cmds, |g.cmds|, dep)
    requires n > 0 && dep != 0 ==> FenceSeen(h.cmds, |h.cmds|, dep)
    ensures var r := Gen(h.cmds + [c], h.nextId + 1, h.nextFence);
            && GoodGen(r) && Unclaimed(r, c.fence) && FenceSeen(r.cmds, |r.cmds|, c.fence)
            && (dep != 0 ==> FenceSeen(r.cmds, |r.cmds|, dep))
  {
    var all := h.cmds + [c];
    if dep != 0 {
      SeenExtends(h.cmds, c, dep);
      var j :| 0 <= j < |h.cmds| && all[j].fence == dep;
    }
    assert all[|h.cmds|].fence == c.fence;
    hide SpecOk;
    hide Chained;
    AppendGood(h, c, h.nextFence);
  }

  lemma {:induction false} BroadcastGood(g: Gen, layer: int, spec: OpSpec, dep: int, n: nat)
    requires GoodGen(g) && SpecOk(spec) && !Chained(ExecCommand(0, 0, layer, spec, g.nextFence, dep))
    requires n > 0 ==> dep == 0 || FenceSeen(g.cmds, |g.cmds|, dep)
    ensures GoodGen(Broadcast(g, layer, spec, dep, n))
    ensures n > 0 ==> FenceSeen(Broadcast(g, layer, spec, dep, n).cmds, |Broadcast(g, layer, spec, dep, n).cmds|, g.nextFence)
  {
    hide OnEach;
    hide SpecOk;
    hide FenceSeen;
    hide InPlace;
    OnEachGood(g.(nextFence := g.nextFence + 1), layer, spec, g.nextFence, dep, n);
  }

  lemma {:induction false} LoadsGood(g: Gen, tile: int, ts: seq<PlanTensor>, k: nat)
    requires GoodGen(g) && k <= |ts|
    ensures GoodGen(LoadsTo(g, tile, ts, k)) && GoodGen(ValidatesTo(g, tile, ts, k))
  {
    hide GoodGen;
    if k > 0 {
      LoadsGood(g, tile, ts, k - 1);
      EmitGood(LoadsTo(g, tile, ts, k - 1), tile, -1, LoadSpec(ts[k - 1]), 0);
      EmitGood(ValidatesTo(g, tile, ts, k - 1), tile, -1, ValidateSpec(ts[k - 1]), 0);
    }
  }

  lemma {:induction false} LoadOwnersGood(g: Gen, ts: seq<PlanTensor>, os: seq<int>, k: nat)
    requires GoodGen(g) && k <= |os|
    ensures GoodGen(LoadOwners(g, ts, os, k))
  {
    hide GoodGen;
    hide Sort;
    if k > 0 {
      LoadOwnersGood(g, ts, os, k - 1);
      var h, mine := LoadOwners(g, ts, os, k - 1), Sort(OwnedBy(ts, os[k - 1]), IdOrder());
      LoadsGood(h, os[k - 1], mine, |mine|);
      LoadsGood(LoadsTo(h, os[k - 1], mine, |mine|), os[k - 1], mine, |mine|);
    }
  }

  ghost predicate SpecsOk(specs: seq<OpSpec>) {
    forall k :: 0 <= k < |specs| ==> SpecOk(specs[k]) && Chained(ExecCommand(0, 0, 0, specs[k], 0, 0))
  }

  /** The chain so far, and its last command when there is one. */
  lemma {:induction false} ChainGood(g: Gen, tile: int, layer: int, specs: seq<OpSpec>, k: nat)
    requires GoodGen(g) && SpecsOk(specs) && k <= |specs|
    ensures GoodGen(ChainTo(g, tile, layer, specs, k))
    ensures k > 0 ==> var h := ChainTo(g, tile, layer, specs, k);
                      |h.cmds| > 0 && Links(h, tile, layer, h.nextFence - 1) && h.cmds[|h.cmds| - 1].fence == h.nextFence - 1
  {
    hide SpecOk;
    hide InPlace;
    if k > 0 {
      ChainGood(g, tile, layer, specs, k - 1);
      var h := ChainTo(g, tile, layer, specs, k - 1);
      var dep := if k == 1 then 0 else h.nextFence - 1;
      assert dep != 0 ==> FenceSeen(h.cmds, |h.cmds|, dep);
      hide FenceSeen;
      EmitGood(h, tile, layer, specs[k - 1], dep);
    }
  }

  lemma {:induction false} LayerSpecsOk(p: PlanInput, layer: nat)
    ensures SpecsOk(LayerSpecs(p, layer)) && SpecsOk(LmHeadSpecs(p))
  {
    hide Weight;
    var a, b := AttentionSpecs(p, layer), FfnSpecs(p, layer);
    assert SpecsOk(a);
    assert SpecsOk(b);
  }

  lemma {:induction false} LayerToGood(g: Gen, p: PlanInput, layer: nat)
    requires GoodGen(g)
    ensures GoodGen(LayerTo(g, p, layer))
  {
    hide GoodGen;
    hide LayerSpecs;
    hide SpecsOk;
    hide LayerTile;
    hide ChainTo;
    hide Broadcast;
    hide FenceSeen;
    LayerSpecsOk(p, layer);
    ChainGood(g, LayerTile(p, layer), layer, LayerSpecs(p, layer), 18);
    BroadcastGood(Chain(g, LayerTile(p, layer), layer, LayerSpecs(p, layer)), layer, TraceSpec(), 0, p.Tiles());
  }

  lemma {:induction false} LayersGood(g: Gen, p: PlanInput, n: nat)
    requires GoodGen(g)
    ensures GoodGen(LayersTo(g, p, n))
  {
    hide GoodGen;
    hide LayerTo;
    if n > 0 {
      LayersGood(g, p, n - 1);
      LayerToGood(LayersTo(g, p, n - 1), p, n - 1);
    }
  }

  function SetupState(p: PlanInput): Gen {
    Setup(LoadAll(Gen([], 1, 1), p.tensors), p)
  }

  lemma {:induction false} SetupGood(p: PlanInput)
    ensures GoodGen(SetupState(p))
  {
    assert GoodGen(Gen([], 1, 1));
    hide GoodGen;
    hide FenceSeen;
    hide LoadOwners;
    hide Broadcast;
    var os := Sort(Owners(p.tensors), IntOrder());
    var g := LoadAll(Gen([], 1, 1), p.tensors);
    LoadOwnersGood(Gen([], 1, 1), p.tensors, os, |os|);
    BroadcastGood(g, -1, BarrierSpec(p), 0, p.Tiles());
    BroadcastGood(Broadcast(g, -1, BarrierSpec(p), 0, p.Tiles()), -1, TraceSpec(), g.nextFence, p.Tiles());
  }

  lemma {:induction false} PlannedGood(p: PlanInput)
    ensures GoodGen(Planned(p))
  {
    hide GoodGen;
    hide SpecsOk;
    hide LmHeadSpecs;
    hide HeadTile;
    hide LayersTo;
    hide Broadcast;
    hide ChainTo;
    hide Setup;
    SetupGood(p);
    LayersGood(SetupState(p), p, p.Layers());
    LayerSpecsOk(p, 0);
    var layers := LayersTo(SetupState(p), p, p.Layers());
    ChainGood(layers, HeadTile(p), -1, LmHeadSpecs(p), 3);
    BroadcastGood(Chain(layers, HeadTile(p), -1, LmHeadSpecs(p)), -1, QuerySpec(), 0, p.Tiles());
  }
}
