module PlannerOrder {
  // The order a planner plan forces on every run: program order inside a layer, and nothing between layers.

  import opened Common
  import opened ExecutionPlan
  import opened ExecutionMapper
  import opened Liveness
  import opened PlannerInvariant

  // ---------------------------------------------------------- program order

  /** No other command carries a chain command's fence. */
  lemma {:induction false} FenceIsExclusive(g: Gen, i: nat, j: nat)
    requires GoodGen(g) && i < |g.cmds| && j < |g.cmds| && Chained(g.cmds[i]) && g.cmds[j].fence == g.cmds[i].fence
    ensures i == j
  {
    assert InPlace(g.cmds, i) && InPlace(g.cmds, j);
  }

  lemma {:induction false} ChainOrderIn(g: Gen, s: State, i: nat)
    requires GoodGen(g) && Consistent(g.cmds, s) && i < |g.cmds| && i in s.started
    requires Chained(g.cmds[i]) && g.cmds[i].dep != 0
    ensures i > 0 && i - 1 in s.completed
    ensures g.cmds[i - 1].layer == g.cmds[i].layer && g.cmds[i - 1].tile == g.cmds[i].tile
  {
    assert InPlace(g.cmds, i);
    hide SpecOk;
    hide FenceSeen;
    assert Released(g.cmds, s, g.cmds[i].dep);
    var j: nat :| j < |g.cmds| && j in s.completed && g.cmds[j].fence == g.cmds[i].dep;
    FenceIsExclusive(g, i - 1, j);
  }

  /** In every run of a planner plan, a chain command that has started and is not the first of its chain has
      seen the command just before it, of the same layer and tile, complete. */
  lemma {:induction false} ChainOrder(p: PlanInput, run: seq<Event>, i: nat)
    requires Run(Planned(p).cmds, run) && i < |Planned(p).cmds| && i in StateAfter(run).started
    requires Chained(Planned(p).cmds[i]) && Planned(p).cmds[i].dep != 0
    ensures i > 0 && i - 1 in StateAfter(run).completed
    ensures Planned(p).cmds[i - 1].layer == Planned(p).cmds[i].layer && Planned(p).cmds[i - 1].tile == Planned(p).cmds[i].tile
  {
    hide *;
    PlannedGood(p);
    RunConsistent(Planned(p).cmds, run);
    ChainOrderIn(Planned(p), StateAfter(run), i);
  }

  /** First position of layer l's commands. */
  function LayerBase(p: PlanInput, layer: nat): nat {
    |LayersTo(SetupState(p), p, layer).cmds|
  }

  ghost predicate Prefix(a: seq<ExecCommand>, b: seq<ExecCommand>) {
    |a| <= |b| && forall i :: 0 <= i < |a| ==> a[i] == b[i]
  }

  lemma {:induction false} ChainPrefix(g: Gen, tile: int, layer: int, specs: seq<OpSpec>, k: nat)
    requires k <= |specs|
    ensures Prefix(g.cmds, ChainTo(g, tile, layer, specs, k).cmds)
    ensures |ChainTo(g, tile, layer, specs, k).cmds| == |g.cmds| + k
    ensures ChainTo(g, tile, layer, specs, k).nextFence == g.nextFence + k
  {
    if k > 0 {
      ChainPrefix(g, tile, layer, specs, k - 1);
    }
  }

  lemma {:induction false} ChainAt(g: Gen, tile: int, layer: int, specs: seq<OpSpec>, n: nat, k: nat)
    requires k < n <= |specs|
    ensures |ChainTo(g, tile, layer, specs, n).cmds| == |g.cmds| + n
    ensures var c := ChainTo(g, tile, layer, specs, n).cmds[|g.cmds| + k];
            && c.tile == tile && c.layer == layer && c.spec == specs[k]
            && c.dep == (if k == 0 then 0 else g.nextFence + k - 1) && c.fence == g.nextFence + k
  {
    ChainPrefix(g, tile, layer, specs, n);
    ChainPrefix(g, tile, layer, specs, n - 1);
    if k < n - 1 {
      ChainAt(g, tile, layer, specs, n - 1, k);
    }
  }

  lemma {:induction false} EachPrefix(g: Gen, layer: int, spec: OpSpec, fence: int, dep: int, n: nat)
    ensures Prefix(g.cmds, OnEach(g, layer, spec, fence, dep, n).cmds)
  {
    if n > 0 {
      EachPrefix(g, layer, spec, fence, dep, n - 1);
    }
  }

  lemma {:induction false} LayerPrefix(g: Gen, p: PlanInput, layer: nat)
    ensures Prefix(g.cmds, Chain(g, LayerTile(p, layer), layer, LayerSpecs(p, layer)).cmds)
    ensures Prefix(Chain(g, LayerTile(p, layer), layer, LayerSpecs(p, layer)).cmds, LayerTo(g, p, layer).cmds)
    ensures Prefix(g.cmds, LayerTo(g, p, layer).cmds)
  {
    hide LayerSpecs;
    hide LayerTile;
    ChainPrefix(g, LayerTile(p, layer), layer, LayerSpecs(p, layer), 18);
    var h := Chain(g, LayerTile(p, layer), layer, LayerSpecs(p, layer));
    EachPrefix(h.(nextFence := h.nextFence + 1), layer, TraceSpec(), h.nextFence, 0, p.Tiles());
    hide ChainTo;
    hide OnEach;
  }

  lemma {:induction false} LayersPrefix(g: Gen, p: PlanInput, l: nat, n: nat)
    requires l <= n
    ensures Prefix(LayersTo(g, p, l).cmds, LayersTo(g, p, n).cmds)
  {
    hide LayerTo;
    if l < n {
      LayersPrefix(g, p, l, n - 1);
      LayerPrefix(LayersTo(g, p, n - 1), p, n - 1);
    }
  }

  lemma {:induction false} HeadPrefix(p: PlanInput)
    ensures Prefix(LayersTo(SetupState(p), p, p.Layers()).cmds, Planned(p).cmds)
  {
    hide LmHeadSpecs;
    hide HeadTile;
    var layers := LayersTo(SetupState(p), p, p.Layers());
    ChainPrefix(layers, HeadTile(p), -1, LmHeadSpecs(p), 3);
    var head := Chain(layers, HeadTile(p), -1, LmHeadSpecs(p));
    EachPrefix(head.(nextFence := head.nextFence + 1), -1, QuerySpec(), head.nextFence, 0, p.Tiles());
    hide LayersTo;
    hide ChainTo;
    hide OnEach;
    hide Setup;
  }

  lemma {:induction false} PrefixAt(a: seq<ExecCommand>, b: seq<ExecCommand>, i: nat)
    requires Prefix(a, b) && i < |a|
    ensures i < |b| && b[i] == a[i]
  {
  }

  lemma {:induction false} LayerBaseIs(p: PlanInput, layer: nat)
    ensures LayerBase(p, layer) == |LayersTo(SetupState(p), p, layer).cmds|
    ensures LayersTo(SetupState(p), p, layer + 1) == LayerTo(LayersTo(SetupState(p), p, layer), p, layer)
    ensures |LayerSpecs(p, layer)| == 18
  {
    hide LayerTo;
    hide SetupState;
  }

  lemma {:induction false} FencesPositive(g: Gen)
    requires GoodGen(g)
    ensures g.nextFence >= 1
  {
  }

  /** The k-th command of a layer right after its chain was generated. */
  lemma {:induction false} ChainCommand(g: Gen, tile: int, layer: int, specs: seq<OpSpec>, k: nat)
    requires GoodGen(g) && k < |specs|
    ensures |g.cmds| + k < |Chain(g, tile, layer, specs).cmds|
    ensures var c := Chain(g, tile, layer, specs).cmds[|g.cmds| + k];
            c.layer == layer && c.tile == tile && c.spec == specs[k] && (c.dep == 0 <==> k == 0)
  {
    hide ChainTo;
    FencesPositive(g);
    ChainAt(g, tile, layer, specs, |specs|, k);
  }

  /** The k-th command of layer l stands at LayerBase + k, performs the layer's k-th operation, and waits for
      nothing if it is the first. */
  lemma {:induction false} LayerCommand(p: PlanInput, layer: nat, k: nat)
    requires layer < p.Layers() && k < 18
    ensures LayerBase(p, layer) + k < |Planned(p).cmds|
    ensures var c := Planned(p).cmds[LayerBase(p, layer) + k];
            c.layer == layer && c.tile == LayerTile(p, layer) && c.spec == LayerSpecs(p, layer)[k] && (c.dep == 0 <==> k == 0)
  {
    hide *;
    var g := LayersTo(SetupState(p), p, layer);
    var i := |g.cmds| + k;
    LayerBaseIs(p, layer);
    SetupGood(p);
    LayersGood(SetupState(p), p, layer);
    ChainCommand(g, LayerTile(p, layer), layer, LayerSpecs(p, layer), k);
    LayerPrefix(g, p, layer);
    PrefixAt(Chain(g, LayerTile(p, layer), layer, LayerSpecs(p, layer)).cmds, LayerTo(g, p, layer).cmds, i);
    LayersPrefix(SetupState(p), p, layer + 1, p.Layers());
    PrefixAt(LayerTo(g, p, layer).cmds, LayersTo(SetupState(p), p, p.Layers()).cmds, i);
    HeadPrefix(p);
    PrefixAt(LayersTo(SetupState(p), p, p.Layers()).cmds, Planned(p).cmds, i);
  }

  lemma {:induction false} LayerChained(p: PlanInput, layer: nat, k: nat, c: ExecCommand)
    requires k < 18 && c.spec == LayerSpecs(p, layer)[k]
    ensures Chained(c)
  {
    LayerSpecsOk(p, layer);
    hide LayerSpecs;
    hide SpecOk;
  }

  /** Main result on order: whatever order a run picks, once command k of a layer has started, all earlier
      commands of that layer have completed. */
  lemma {:induction false} LayersRunInProgramOrder(p: PlanInput, run: seq<Event>, layer: nat, j: nat, k: nat)
    requires Run(Planned(p).cmds, run) && layer < p.Layers() && j < k < 18
    requires LayerBase(p, layer) + k in StateAfter(run).started
    ensures LayerBase(p, layer) + j in StateAfter(run).completed
    decreases k
  {
    hide *;
    var i := LayerBase(p, layer) + k;
    LayerCommand(p, layer, k);
    LayerChained(p, layer, k, Planned(p).cmds[i]);
    ChainOrder(p, run, i);
    if j < k - 1 {
      CompletedStarted(Planned(p).cmds, run, i - 1);
      LayersRunInProgramOrder(p, run, layer, j, k - 1);
    }
  }

  lemma {:induction false} CompletedStarted(cmds: seq<ExecCommand>, run: seq<Event>, i: int)
    requires Run(cmds, run) && i in StateAfter(run).completed
    ensures i in StateAfter(run).started
  {
    hide Run;
    hide StateAfter;
    RunConsistent(cmds, run);
  }

  /** The fences order commands inside a layer only: the first command of every layer may start at once,
      before any load, any barrier and any other layer. */
  lemma {:induction false} LayersStartUnfenced(p: PlanInput, layer: nat)
    requires layer < p.Layers()
    ensures Enabled(Planned(p).cmds, StateAfter([]), Start(LayerBase(p, layer)))
  {
    LayerCommand(p, layer, 0);
    hide Planned;
    hide LayerBase;
  }
}
