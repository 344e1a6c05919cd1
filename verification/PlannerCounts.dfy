module PlannerCounts {
  // Sums over a generated plan, and the exact number of commands and of EXEC operations in it.

  import opened Common
  import opened Tally
  import opened ExecutionPlan

  // ----------------------------------------------------- sums over the plan

  /** A weight that looks at a command's tile and operation only. */
  function By(v: (int, Op) -> int): ExecCommand -> int {
    (c: ExecCommand) => v(c.tile, c.spec.op)
  }

  function PerTensor(v: (int, Op) -> int): PlanTensor -> int {
    (t: PlanTensor) => v(OwnerOf(t), LoadTensor) + v(OwnerOf(t), ValidateTensor)
  }

  function PerSpec(v: (int, Op) -> int, tile: int): OpSpec -> int {
    (s: OpSpec) => v(tile, s.op)
  }

  function PerTile(v: (int, Op) -> int, op: Op, n: nat): int {
    if n == 0 then 0 else PerTile(v, op, n - 1) + v(n - 1, op)
  }

  lemma {:induction false} EmitTotal(g: Gen, tile: int, layer: int, spec: OpSpec, dep: int, v: (int, Op) -> int)
    ensures Total(Emit(g, tile, layer, spec, dep).cmds, By(v)) == Total(g.cmds, By(v)) + v(tile, spec.op)
  {
    TotalSnoc(g.cmds, ExecCommand(g.nextId, tile, layer, spec, g.nextFence, dep), By(v));
  }

  lemma {:induction false} OnEachTotal(g: Gen, layer: int, spec: OpSpec, fence: int, dep: int, n: nat, v: (int, Op) -> int)
    ensures Total(OnEach(g, layer, spec, fence, dep, n).cmds, By(v)) == Total(g.cmds, By(v)) + PerTile(v, spec.op, n)
  {
    if n > 0 {
      OnEachTotal(g, layer, spec, fence, dep, n - 1, v);
      var h := OnEach(g, layer, spec, fence, dep, n - 1);
      TotalSnoc(h.cmds, ExecCommand(h.nextId, n - 1, layer, spec, fence, dep), By(v));
    }
  }

  lemma {:induction false} ChainTotal(g: Gen, tile: int, layer: int, specs: seq<OpSpec>, k: nat, v: (int, Op) -> int)
    requires k <= |specs|
    ensures Total(ChainTo(g, tile, layer, specs, k).cmds, By(v)) == Total(g.cmds, By(v)) + Total(specs[..k], PerSpec(v, tile))
  {
    hide Emit;
    hide Total;
    if k > 0 {
      ChainTotal(g, tile, layer, specs, k - 1, v);
      var h := ChainTo(g, tile, layer, specs, k - 1);
      EmitTotal(h, tile, layer, specs[k - 1], if k == 1 then 0 else h.nextFence - 1, v);
      assert specs[..k] == specs[..k - 1] + [specs[k - 1]];
      TotalSnoc(specs[..k - 1], specs[k - 1], PerSpec(v, tile));
    } else {
      NoSpecs(PerSpec(v, tile));
      assert specs[..0] == [];
    }
  }

  lemma {:induction false} NoSpecs(f: OpSpec -> int)
    ensures Total([], f) == 0
  {
  }

  function OneOf(v: (int, Op) -> int, op: Op): PlanTensor -> int {
    (t: PlanTensor) => v(OwnerOf(t), op)
  }

  lemma {:induction false} LoadsTotal(g: Gen, tile: int, ts: seq<PlanTensor>, k: nat, v: (int, Op) -> int)
    requires k <= |ts| && forall i :: 0 <= i < |ts| ==> OwnerOf(ts[i]) == tile
    ensures Total(LoadsTo(g, tile, ts, k).cmds, By(v)) == Total(g.cmds, By(v)) + Total(ts[..k], OneOf(v, LoadTensor))
    ensures Total(ValidatesTo(g, tile, ts, k).cmds, By(v)) == Total(g.cmds, By(v)) + Total(ts[..k], OneOf(v, ValidateTensor))
  {
    hide Emit;
    hide Total;
    if k > 0 {
      LoadsTotal(g, tile, ts, k - 1, v);
      EmitTotal(LoadsTo(g, tile, ts, k - 1), tile, -1, LoadSpec(ts[k - 1]), 0, v);
      EmitTotal(ValidatesTo(g, tile, ts, k - 1), tile, -1, ValidateSpec(ts[k - 1]), 0, v);
      assert ts[..k] == ts[..k - 1] + [ts[k - 1]];
      TotalSnoc(ts[..k - 1], ts[k - 1], OneOf(v, LoadTensor));
      TotalSnoc(ts[..k - 1], ts[k - 1], OneOf(v, ValidateTensor));
    } else {
      NoTensors(OneOf(v, LoadTensor));
      NoTensors(OneOf(v, ValidateTensor));
      assert ts[..0] == [];
    }
  }

  lemma {:induction false} NoTensors(f: PlanTensor -> int)
    ensures Total([], f) == 0
  {
  }

  lemma {:induction false} LoadTileTotal(g: Gen, tile: int, ts: seq<PlanTensor>, v: (int, Op) -> int)
    requires forall i :: 0 <= i < |ts| ==> OwnerOf(ts[i]) == tile
    ensures Total(LoadTile(g, tile, ts).cmds, By(v)) == Total(g.cmds, By(v)) + Total(ts, PerTensor(v))
  {
    hide LoadsTo;
    hide ValidatesTo;
    LoadsTotal(g, tile, ts, |ts|, v);
    LoadsTotal(LoadsTo(g, tile, ts, |ts|), tile, ts, |ts|, v);
    assert ts[..|ts|] == ts;
    TotalAdd(ts, OneOf(v, LoadTensor), OneOf(v, ValidateTensor), PerTensor(v));
  }

  function OwnerIn(os: set<int>, f: PlanTensor -> int): PlanTensor -> int {
    (t: PlanTensor) => if OwnerOf(t) in os then f(t) else 0
  }

  lemma {:induction false} OwnedTotal(ts: seq<PlanTensor>, tile: int, f: PlanTensor -> int)
    ensures Total(OwnedBy(ts, tile), f) == Total(ts, OwnerIn({tile}, f))
  {
    if |ts| > 0 {
      hide Total;
      var init, t := ts[..|ts| - 1], ts[|ts| - 1];
      OwnedTotal(init, tile, f);
      assert ts == init + [t];
      TotalSnoc(init, t, OwnerIn({tile}, f));
      TotalSnoc(OwnedBy(init, tile), t, f);
      assert OwnedBy(init, tile) + [] == OwnedBy(init, tile);
    }
  }

  lemma {:induction false} OwnedOwners(ts: seq<PlanTensor>, tile: int)
    ensures forall i :: 0 <= i < |OwnedBy(ts, tile)| ==> OwnerOf(OwnedBy(ts, tile)[i]) == tile
  {
    if |ts| > 0 {
      OwnedOwners(ts[..|ts| - 1], tile);
    }
  }

  lemma {:induction false} MineSorted(ts: seq<PlanTensor>, tile: int, f: PlanTensor -> int)
    ensures forall i :: 0 <= i < |Sort(OwnedBy(ts, tile), IdOrder())| ==> OwnerOf(Sort(OwnedBy(ts, tile), IdOrder())[i]) == tile
    ensures Total(Sort(OwnedBy(ts, tile), IdOrder()), f) == Total(ts, OwnerIn({tile}, f))
  {
    var mine, sorted := OwnedBy(ts, tile), Sort(OwnedBy(ts, tile), IdOrder());
    SortPermutes(mine, IdOrder());
    TotalPermuted(sorted, mine, f);
    OwnedTotal(ts, tile, f);
    OwnedOwners(ts, tile);
    forall i | 0 <= i < |sorted|
      ensures OwnerOf(sorted[i]) == tile
    {
      assert sorted[i] in multiset(mine);
      var k :| 0 <= k < |mine| && mine[k] == sorted[i];
    }
  }

  ghost predicate DistinctInts(os: seq<int>) {
    forall i, j :: 0 <= i < j < |os| ==> os[i] != os[j]
  }

  function FirstOf(os: seq<int>, k: nat): set<int>
    requires k <= |os|
  {
    set i | 0 <= i < k :: os[i]
  }

  lemma {:induction false} LoadOwnersTotal(g: Gen, ts: seq<PlanTensor>, os: seq<int>, k: nat, v: (int, Op) -> int)
    requires k <= |os| && DistinctInts(os)
    ensures Total(LoadOwners(g, ts, os, k).cmds, By(v)) == Total(g.cmds, By(v)) + Total(ts, OwnerIn(FirstOf(os, k), PerTensor(v)))
  {
    hide LoadTile;
    hide Total;
    hide Sort;
    if k > 0 {
      LoadOwnersTotal(g, ts, os, k - 1, v);
      var h, tile := LoadOwners(g, ts, os, k - 1), os[k - 1];
      MineSorted(ts, tile, PerTensor(v));
      LoadTileTotal(h, tile, Sort(OwnedBy(ts, tile), IdOrder()), v);
      OwnersSplit(ts, os, k, PerTensor(v));
    } else {
      NoOwners(ts, os, PerTensor(v));
    }
  }

  lemma {:induction false} OwnersSplit(ts: seq<PlanTensor>, os: seq<int>, k: nat, f: PlanTensor -> int)
    requires 0 < k <= |os| && DistinctInts(os)
    ensures Total(ts, OwnerIn(FirstOf(os, k), f)) == Total(ts, OwnerIn(FirstOf(os, k - 1), f)) + Total(ts, OwnerIn({os[k - 1]}, f))
  {
    assert os[k - 1] !in FirstOf(os, k - 1);
    assert FirstOf(os, k) == FirstOf(os, k - 1) + {os[k - 1]};
    TotalAdd(ts, OwnerIn(FirstOf(os, k - 1), f), OwnerIn({os[k - 1]}, f), OwnerIn(FirstOf(os, k), f));
  }

  lemma {:induction false} NoOwners(ts: seq<PlanTensor>, os: seq<int>, f: PlanTensor -> int)
    ensures Total(ts, OwnerIn(FirstOf(os, 0), f)) == 0
  {
    TotalZero(ts, OwnerIn(FirstOf(os, 0), f));
  }

  lemma {:induction false} OwnersDistinct(ts: seq<PlanTensor>)
    ensures DistinctInts(Owners(ts))
  {
    if |ts| > 0 {
      OwnersDistinct(ts[..|ts| - 1]);
    }
  }

  lemma {:induction false} DistinctPermuted(a: seq<int>, b: seq<int>)
    requires multiset(a) == multiset(b) && DistinctInts(b)
    ensures DistinctInts(a)
  {
    forall i, j | 0 <= i < j < |a|
      ensures a[i] != a[j]
    {
      if a[i] == a[j] {
        TwiceInMultiset(a, i, j);
        assert multiset(b)[a[i]] >= 2;
        OnceInMultiset(b, a[i]);
      }
    }
  }

  lemma {:induction false} TwiceInMultiset(s: seq<int>, i: nat, j: nat)
    requires i < j < |s| && s[i] == s[j]
    ensures multiset(s)[s[i]] >= 2
  {
    assert s == s[..i] + [s[i]] + s[i + 1..j] + [s[j]] + s[j + 1..];
  }

  lemma {:induction false} OnceInMultiset(s: seq<int>, x: int)
    requires DistinctInts(s)
    ensures multiset(s)[x] <= 1
  {
    if |s| > 0 {
      var init := s[..|s| - 1];
      OnceInMultiset(init, x);
      LastMultiset(s);
      if x == s[|s| - 1] && x in init {
        assert false;
      }
    }
  }

  lemma {:induction false} LoadAllTotal(g: Gen, ts: seq<PlanTensor>, v: (int, Op) -> int)
    ensures Total(LoadAll(g, ts).cmds, By(v)) == Total(g.cmds, By(v)) + Total(ts, PerTensor(v))
  {
    var owners, os := Owners(ts), Sort(Owners(ts), IntOrder());
    OwnersDistinct(ts);
    SortPermutes(owners, IntOrder());
    DistinctPermuted(os, owners);
    LoadOwnersTotal(g, ts, os, |os|, v);
    forall i | 0 <= i < |ts|
      ensures OwnerOf(ts[i]) in FirstOf(os, |os|)
    {
      assert ts[i] in ts;
      assert OwnerOf(ts[i]) in multiset(os);
      var k :| 0 <= k < |os| && os[k] == OwnerOf(ts[i]);
    }
    TotalSame(ts, OwnerIn(FirstOf(os, |os|), PerTensor(v)), PerTensor(v));
    hide LoadOwners;
    hide Total;
  }

  function LayersSum(p: PlanInput, n: nat, v: (int, Op) -> int): int {
    if n == 0 then 0
    else LayersSum(p, n - 1, v) + Total(LayerSpecs(p, n - 1), PerSpec(v, LayerTile(p, n - 1)))
         + if Traced(p, n - 1) then PerTile(v, TraceSnapshot, p.Tiles()) else 0
  }

  lemma {:induction false} ChainAllTotal(g: Gen, tile: int, layer: int, specs: seq<OpSpec>, v: (int, Op) -> int)
    ensures Total(Chain(g, tile, layer, specs).cmds, By(v)) == Total(g.cmds, By(v)) + Total(specs, PerSpec(v, tile))
  {
    ChainTotal(g, tile, layer, specs, |specs|, v);
    assert specs[..|specs|] == specs;
  }

  lemma {:induction false} BroadcastTotal(g: Gen, layer: int, spec: OpSpec, dep: int, n: nat, v: (int, Op) -> int)
    ensures Total(Broadcast(g, layer, spec, dep, n).cmds, By(v)) == Total(g.cmds, By(v)) + PerTile(v, spec.op, n)
  {
    OnEachTotal(g.(nextFence := g.nextFence + 1), layer, spec, g.nextFence, dep, n, v);
  }

  lemma {:induction false} LayersTotal(g: Gen, p: PlanInput, n: nat, v: (int, Op) -> int)
    ensures Total(LayersTo(g, p, n).cmds, By(v)) == Total(g.cmds, By(v)) + LayersSum(p, n, v)
  {
    hide Chain;
    hide Broadcast;
    hide LayerSpecs;
    hide LayerTile;
    hide PerTile;
    hide Total;
    if n > 0 {
      LayersTotal(g, p, n - 1, v);
      var h := LayersTo(g, p, n - 1);
      ChainAllTotal(h, LayerTile(p, n - 1), n - 1, LayerSpecs(p, n - 1), v);
      BroadcastTotal(Chain(h, LayerTile(p, n - 1), n - 1, LayerSpecs(p, n - 1)), n - 1, TraceSpec(), 0, p.Tiles(), v);
    }
  }

  /** A weight of the whole plan. */
  lemma {:induction false} PlannedTotal(p: PlanInput, v: (int, Op) -> int)
    ensures Total(Planned(p).cmds, By(v))
         == Total(p.tensors, PerTensor(v)) + PerTile(v, TileBarrier, p.Tiles()) + PerTile(v, TraceSnapshot, p.Tiles())
            + LayersSum(p, p.Layers(), v) + Total(LmHeadSpecs(p), PerSpec(v, HeadTile(p))) + PerTile(v, QueryCounters, p.Tiles())
  {
    hide LoadAll;
    hide Broadcast;
    hide Chain;
    hide LayersTo;
    hide LayersSum;
    hide LmHeadSpecs;
    hide HeadTile;
    hide PerTile;
    var g := LoadAll(Gen([], 1, 1), p.tensors);
    LoadAllTotal(Gen([], 1, 1), p.tensors, v);
    var barriers := Broadcast(g, -1, BarrierSpec(p), 0, p.Tiles());
    BroadcastTotal(g, -1, BarrierSpec(p), 0, p.Tiles(), v);
    var setup := Setup(g, p);
    BroadcastTotal(barriers, -1, TraceSpec(), g.nextFence, p.Tiles(), v);
    var layers := LayersTo(setup, p, p.Layers());
    LayersTotal(setup, p, p.Layers(), v);
    var head := Chain(layers, HeadTile(p), -1, LmHeadSpecs(p));
    ChainAllTotal(layers, HeadTile(p), -1, LmHeadSpecs(p), v);
    BroadcastTotal(head, -1, QuerySpec(), 0, p.Tiles(), v);
    assert Total<ExecCommand>([], By(v)) == 0;
    hide Total;
  }

  // ----------------------------------------------------------------- counts

  function CountAll(): (int, Op) -> int {
    (tile: int, op: Op) => 1
  }

  function CountExec(): (int, Op) -> int {
    (tile: int, op: Op) => if op.Exec() then 1 else 0
  }

  lemma {:induction false} PerTileConstant(v: (int, Op) -> int, op: Op, n: nat, c: int)
    requires forall t :: v(t, op) == c
    ensures PerTile(v, op, n) == c * n
  {
    if n > 0 {
      PerTileConstant(v, op, n - 1, c);
    }
  }

  /** Layers below n after which a trace is taken. */
  function TracedCount(p: PlanInput, n: nat): nat {
    if n == 0 then 0 else TracedCount(p, n - 1) + if Traced(p, n - 1) then 1 else 0
  }

  lemma {:induction false} TracedEveryFour(p: PlanInput, n: nat)
    requires n <= p.Layers()
    ensures TracedCount(p, n) == if n < p.Layers() then n / 4 else (n + 3) / 4
  {
    if n > 0 {
      TracedEveryFour(p, n - 1);
    }
  }

  /** Nine of the eleven attention operations and six of the seven feed-forward ones are EXEC commands. */
  lemma {:induction false} LayerExecCount(p: PlanInput, layer: nat, tile: int)
    ensures Total(AttentionSpecs(p, layer), PerSpec(CountExec(), tile)) == 9
    ensures Total(FfnSpecs(p, layer), PerSpec(CountExec(), tile)) == 6
    ensures Total(LayerSpecs(p, layer), PerSpec(CountExec(), tile)) == 15
  {
    hide Weight;
    var a, b, f := AttentionSpecs(p, layer), FfnSpecs(p, layer), PerSpec(CountExec(), tile);
    assert a[..0] == [] && a[..11] == a && b[..0] == [] && b[..7] == b;
    AttentionCount(a, f);
    FfnCount(b, f);
    hide Total;
    TotalConcat(a, b, f);
  }

  lemma {:induction false} AttentionCount(a: seq<OpSpec>, f: OpSpec -> int)
    requires |a| == 11 && forall k :: 0 <= k < 11 ==> f(a[k]) == if k == 6 || k == 7 then 0 else 1
    ensures Total(a[..11], f) == 9
  {
    hide Total;
    TotalTake(a, f, 0);
    TotalTake(a, f, 1);
    TotalTake(a, f, 2);
    TotalTake(a, f, 3);
    TotalTake(a, f, 4);
    TotalTake(a, f, 5);
    TotalTake(a, f, 6);
    TotalTake(a, f, 7);
    TotalTake(a, f, 8);
    TotalTake(a, f, 9);
    TotalTake(a, f, 10);
    NoSpecs(f);
    assert a[..0] == [];
  }

  lemma {:induction false} FfnCount(b: seq<OpSpec>, f: OpSpec -> int)
    requires |b| == 7 && forall k :: 0 <= k < 7 ==> f(b[k]) == if k == 6 then 0 else 1
    ensures Total(b[..7], f) == 6
  {
    hide Total;
    TotalTake(b, f, 0);
    TotalTake(b, f, 1);
    TotalTake(b, f, 2);
    TotalTake(b, f, 3);
    TotalTake(b, f, 4);
    TotalTake(b, f, 5);
    TotalTake(b, f, 6);
    NoSpecs(f);
    assert b[..0] == [];
  }

  lemma {:induction false} LayersCount(p: PlanInput, n: nat)
    ensures LayersSum(p, n, CountAll()) == 18 * n + p.Tiles() * TracedCount(p, n)
    ensures LayersSum(p, n, CountExec()) == 15 * n
  {
    hide LayerSpecs;
    hide LayerTile;
    hide Traced;
    hide Total;
    hide PerTile;
    if n > 0 {
      LayersCount(p, n - 1);
      CountIsLength(LayerSpecs(p, n - 1), PerSpec(CountAll(), LayerTile(p, n - 1)), 1);
      LayerExecCount(p, n - 1, LayerTile(p, n - 1));
      PerTileConstant(CountAll(), TraceSnapshot, p.Tiles(), 1);
      PerTileConstant(CountExec(), TraceSnapshot, p.Tiles(), 0);
      TimesNext(p.Tiles(), TracedCount(p, n - 1));
    }
  }

  lemma {:induction false} TimesNext(t: nat, c: nat)
    ensures t * (c + 1) == t * c + t
  {
  }

  lemma {:induction false} CommandCount(p: PlanInput)
    ensures |Planned(p).cmds|
         == 2 * |p.tensors| + 3 * p.Tiles() + 18 * p.Layers() + p.Tiles() * ((p.Layers() + 3) / 4) + 3
  {
    hide Planned;
    hide Total;
    hide PerTile;
    hide LayersSum;
    hide TracedCount;
    hide HeadTile;
    PlannedTotal(p, CountAll());
    CountIsLength(Planned(p).cmds, By(CountAll()), 1);
    CountIsLength(p.tensors, PerTensor(CountAll()), 2);
    CountIsLength(LmHeadSpecs(p), PerSpec(CountAll(), HeadTile(p)), 1);
    PerTileConstant(CountAll(), TileBarrier, p.Tiles(), 1);
    PerTileConstant(CountAll(), TraceSnapshot, p.Tiles(), 1);
    PerTileConstant(CountAll(), QueryCounters, p.Tiles(), 1);
    LayersCount(p, p.Layers());
    TracedEveryFour(p, p.Layers());
  }

  lemma {:induction false} ExecCount(p: PlanInput)
    ensures Total(Planned(p).cmds, By(CountExec())) == 15 * p.Layers() + 3
  {
    hide Planned;
    hide Total;
    hide PerTile;
    hide LayersSum;
    hide HeadTile;
    PlannedTotal(p, CountExec());
    CountIsLength(p.tensors, PerTensor(CountExec()), 0);
    CountIsLength(LmHeadSpecs(p), PerSpec(CountExec(), HeadTile(p)), 1);
    PerTileConstant(CountExec(), TileBarrier, p.Tiles(), 0);
    PerTileConstant(CountExec(), TraceSnapshot, p.Tiles(), 0);
    PerTileConstant(CountExec(), QueryCounters, p.Tiles(), 0);
    LayersCount(p, p.Layers());
  }

  /** With n tensors, T tiles and L layers: 2n + 3T + 18L + T * ceil(L / 4) + 3 commands, of which 15L + 3
      are EXEC operations. */
  lemma {:induction false} PlanCounts(p: PlanInput)
    ensures |Planned(p).cmds|
         == 2 * |p.tensors| + 3 * p.Tiles() + 18 * p.Layers() + p.Tiles() * ((p.Layers() + 3) / 4) + 3
    ensures Total(Planned(p).cmds, By(CountExec())) == 15 * p.Layers() + 3
  {
    hide *;
    CommandCount(p);
    ExecCount(p);
  }
}
