module PlannerAcceptance {
  // When the command mapper takes a generated plan, and what the next consumers make of the result.

  import opened Common
  import opened Tally
  import opened ExecutionPlan
  import opened ExecutionMapper
  import opened PlannerInvariant
  import opened PlannerCounts
  import CP = CommandPlan

  // ------------------------------------------------------------- acceptance

  function OffTile(tileCount: int): (int, Op) -> int {
    (tile: int, op: Op) => if 0 <= tile < tileCount then 0 else 1
  }

  ghost predicate OwnersNonNegative(ts: seq<PlanTensor>) {
    forall i :: 0 <= i < |ts| ==> OwnerOf(ts[i]) >= 0
  }

  /** Every owner, zero where it is missing, is a tile of the plan. */
  ghost predicate OwnersOnTiles(ts: seq<PlanTensor>, tileCount: int) {
    forall i :: 0 <= i < |ts| ==> 0 <= OwnerOf(ts[i]) < tileCount
  }

  /** What the planner's own validation leaves open about owners is their sign. */
  lemma {:induction false} NoErrorsOwners(ts: seq<PlanTensor>, tileCount: int)
    requires ErrorCount(ts, tileCount) == 0
    ensures forall i :: 0 <= i < |ts| ==> ts[i].owner.Some? && OwnerOf(ts[i]) < tileCount
    ensures OwnersOnTiles(ts, tileCount) <==> OwnersNonNegative(ts)
  {
    if |ts| > 0 {
      NoErrorsOwners(ts[..|ts| - 1], tileCount);
    }
  }

  lemma {:induction false} FoundIsMember(ts: seq<PlanTensor>, name: string)
    ensures FindByName(ts, name).Some? ==> FindByName(ts, name).value in ts
  {
    if |ts| > 0 {
      FoundIsMember(ts[..|ts| - 1], name);
    }
  }

  lemma {:induction false} ChosenTilesInRange(p: PlanInput, layer: nat)
    requires p.tileCount >= 1 && OwnersOnTiles(p.tensors, p.tileCount)
    ensures 0 <= LayerTile(p, layer) < p.tileCount && 0 <= HeadTile(p) < p.tileCount
  {
    hide Weight;
    hide FindByName;
    FoundIsMember(p.tensors, Weight(layer, ".attention_norm.weight"));
    FoundIsMember(p.tensors, "norm.weight");
    FoundIsMember(p.tensors, "output_norm.weight");
  }

  lemma {:induction false} PerTileOnTile(op: Op, n: nat, tileCount: int)
    requires n <= tileCount
    ensures PerTile(OffTile(tileCount), op, n) == 0
  {
    if n > 0 {
      PerTileOnTile(op, n - 1, tileCount);
    }
  }

  lemma {:induction false} LayersOnTile(p: PlanInput, n: nat)
    requires p.tileCount >= 1 && OwnersOnTiles(p.tensors, p.tileCount)
    ensures LayersSum(p, n, OffTile(p.tileCount)) == 0
  {
    hide LayerSpecs;
    hide LayerTile;
    if n > 0 {
      LayersOnTile(p, n - 1);
      ChosenTilesInRange(p, n - 1);
      TotalZero(LayerSpecs(p, n - 1), PerSpec(OffTile(p.tileCount), LayerTile(p, n - 1)));
      PerTileOnTile(TraceSnapshot, p.Tiles(), p.tileCount);
    }
  }

  /** Totals of non-negative weights vanish only when every term does. */
  lemma {:induction false} ZeroTotal<T>(s: seq<T>, f: T -> int, i: nat)
    requires i < |s| && Total(s, f) == 0 && forall k :: 0 <= k < |s| ==> f(s[k]) >= 0
    ensures f(s[i]) == 0
  {
    TotalWithout(s, i, f);
    TotalZero(Without(s, i), (x: T) => 0);
    TotalMonotone(Without(s, i), (x: T) => 0, f);
  }

  lemma {:induction false} NonNegativeTotal<T>(s: seq<T>, f: T -> int)
    requires forall k :: 0 <= k < |s| ==> f(s[k]) >= 0
    ensures Total(s, f) >= 0
  {
    if |s| > 0 {
      NonNegativeTotal(s[..|s| - 1], f);
    }
  }

  lemma {:induction false} PerTileNonNegative(v: (int, Op) -> int, op: Op, n: nat)
    requires forall t, o :: v(t, o) >= 0
    ensures PerTile(v, op, n) >= 0
  {
    if n > 0 {
      PerTileNonNegative(v, op, n - 1);
    }
  }

  lemma {:induction false} LayersNonNegative(p: PlanInput, n: nat, v: (int, Op) -> int)
    requires forall t, o :: v(t, o) >= 0
    ensures LayersSum(p, n, v) >= 0
  {
    hide LayerSpecs;
    hide LayerTile;
    if n > 0 {
      LayersNonNegative(p, n - 1, v);
      var specs, f := LayerSpecs(p, n - 1), PerSpec(v, LayerTile(p, n - 1));
      forall k | 0 <= k < |specs|
        ensures f(specs[k]) >= 0
      {
        assert f(specs[k]) == v(LayerTile(p, n - 1), specs[k].op);
      }
      NonNegativeTotal(LayerSpecs(p, n - 1), PerSpec(v, LayerTile(p, n - 1)));
      PerTileNonNegative(v, TraceSnapshot, p.Tiles());
    }
  }

  ghost predicate OnPlanTiles(cmds: seq<ExecCommand>, tileCount: int) {
    forall i :: 0 <= i < |cmds| ==> 0 <= cmds[i].tile < tileCount
  }

  /** Every command sits on a tile of the plan exactly when every owner does. */
  lemma {:induction false} TilesIff(p: PlanInput)
    requires p.tileCount >= 1
    ensures OnPlanTiles(Planned(p).cmds, p.tileCount) <==> OwnersOnTiles(p.tensors, p.tileCount)
  {
    if OwnersOnTiles(p.tensors, p.tileCount) {
      AllOnTile(p);
    } else {
      OneOffTile(p);
    }
  }

  lemma {:induction false} AllOnTile(p: PlanInput)
    requires p.tileCount >= 1 && OwnersOnTiles(p.tensors, p.tileCount)
    ensures OnPlanTiles(Planned(p).cmds, p.tileCount)
  {
    hide Total;
    hide Planned;
    hide LayersSum;
    hide PerTile;
    var v := OffTile(p.tileCount);
    PlannedTotal(p, v);
    TotalZero(p.tensors, PerTensor(v));
    ChosenTilesInRange(p, 0);
    TotalZero(LmHeadSpecs(p), PerSpec(v, HeadTile(p)));
    PerTileOnTile(TileBarrier, p.Tiles(), p.tileCount);
    PerTileOnTile(TraceSnapshot, p.Tiles(), p.tileCount);
    PerTileOnTile(QueryCounters, p.Tiles(), p.tileCount);
    LayersOnTile(p, p.Layers());
    var cmds := Planned(p).cmds;
    forall i | 0 <= i < |cmds|
      ensures 0 <= cmds[i].tile < p.tileCount
    {
      ZeroTotal(cmds, By(v), i);
    }
  }

  lemma {:induction false} StrayOwnerCounts(ts: seq<PlanTensor>, tileCount: int)
    requires !OwnersOnTiles(ts, tileCount)
    ensures Total(ts, PerTensor(OffTile(tileCount))) > 0
  {
    var f := PerTensor(OffTile(tileCount));
    NonNegativeTotal(ts, f);
    var i :| 0 <= i < |ts| && !(0 <= OwnerOf(ts[i]) < tileCount);
    if Total(ts, f) == 0 {
      ZeroTotal(ts, f, i);
    }
  }

  lemma {:induction false} HeadNonNegative(p: PlanInput, v: (int, Op) -> int, tile: int)
    requires forall t, o :: v(t, o) >= 0
    ensures Total(LmHeadSpecs(p), PerSpec(v, tile)) >= 0
  {
    var specs, f := LmHeadSpecs(p), PerSpec(v, tile);
    hide LmHeadSpecs;
    forall k | 0 <= k < |specs|
      ensures f(specs[k]) >= 0
    {
      assert f(specs[k]) == v(tile, specs[k].op);
    }
    NonNegativeTotal(specs, f);
  }

  lemma {:induction false} OneOffTile(p: PlanInput)
    requires !OwnersOnTiles(p.tensors, p.tileCount)
    ensures !OnPlanTiles(Planned(p).cmds, p.tileCount)
  {
    hide Planned;
    hide Total;
    hide LayersSum;
    hide PerTile;
    hide LmHeadSpecs;
    hide HeadTile;
    hide OwnersOnTiles;
    var v := OffTile(p.tileCount);
    PlannedTotal(p, v);
    StrayOwnerCounts(p.tensors, p.tileCount);
    HeadNonNegative(p, v, HeadTile(p));
    PerTileNonNegative(v, TileBarrier, p.Tiles());
    PerTileNonNegative(v, TraceSnapshot, p.Tiles());
    PerTileNonNegative(v, QueryCounters, p.Tiles());
    LayersNonNegative(p, p.Layers(), v);
    if OnPlanTiles(Planned(p).cmds, p.tileCount) {
      TotalZero(Planned(p).cmds, By(v));
    }
  }

  lemma {:induction false} GoodCommandOk(g: Gen, i: nat, tileCount: int)
    requires GoodGen(g) && i < |g.cmds| && 0 <= g.cmds[i].tile < tileCount
    ensures CommandOk(g.cmds, i, tileCount, false) && Mappable(g.cmds[i], false)
  {
    assert InPlace(g.cmds, i);
    hide FenceSeen;
    forall j | 0 <= j < i
      ensures g.cmds[j].id != g.cmds[i].id
    {
      assert InPlace(g.cmds, j);
    }
  }

  function PlanOf(p: PlanInput, model: string, session: string): ExecPlan {
    ExecPlan(1, model, session, p.tileCount, Planned(p).cmds)
  }

  /** Every planner plan is accepted by the non-strict mapper exactly when there is a tile, both ids are given
      and every owner is a tile; the strict mapper never accepts one, because every plan ends in EXEC operations. */
  lemma {:induction false} PlannerToMapper(p: PlanInput, model: string, session: string)
    ensures MapPlan(PlanOf(p, model, session), false).Ok?
       <==> p.tileCount >= 1 && model != "" && session != "" && OwnersOnTiles(p.tensors, p.tileCount)
    ensures MapPlan(PlanOf(p, model, session), true).Err?
  {
    var plan := PlanOf(p, model, session);
    MapPlanIff(plan, false);
    MapPlanIff(plan, true);
    PlannedGood(p);
    SomeExec(p);
    if p.tileCount >= 1 {
      TilesIff(p);
    }
    hide Planned;
    hide MapPlan;
    hide GoodGen;
    hide OwnersOnTiles;
    if p.tileCount >= 1 && OwnersOnTiles(p.tensors, p.tileCount) {
      forall i | 0 <= i < |plan.commands|
        ensures CommandOk(plan.commands, i, p.tileCount, false) && Mappable(plan.commands[i], false)
      {
        GoodCommandOk(Planned(p), i, p.tileCount);
      }
    }
    if p.tileCount >= 1 && PlanAccepted(plan, false) {
      forall i | 0 <= i < |plan.commands|
        ensures 0 <= plan.commands[i].tile < p.tileCount
      {
        assert CommandOk(plan.commands, i, p.tileCount, false);
      }
    }
  }

  lemma {:induction false} SomeExec(p: PlanInput)
    ensures exists i :: 0 <= i < |Planned(p).cmds| && !Mappable(Planned(p).cmds[i], true)
  {
    PlanCounts(p);
    var cmds := Planned(p).cmds;
    PlannedPhases(p);
    hide Planned;
    if forall i :: 0 <= i < |cmds| ==> !cmds[i].spec.op.Exec() {
      TotalZero(cmds, By(CountExec()));
    }
    var i :| 0 <= i < |cmds| && cmds[i].spec.op.Exec();
    assert !Advisory(cmds[i].spec.phase);
  }

  // ------------------------------------------------------ counts and status

  lemma {:induction false} UnsupportedTotal(cmds: seq<ExecCommand>, out: seq<MappedCommand>)
    requires |out| == |cmds| && NoAdvisoryExec(cmds) && forall i :: 0 <= i < |cmds| ==> Corresponds(cmds[i], i, out[i])
    ensures Total(out, Unsupported) == Total(cmds, By(CountExec()))
  {
    var n := |cmds| - 1;
    if n >= 0 {
      forall i | 0 <= i < n
        ensures AdvisoryExec(cmds[..n][i]) == 0
      {
        assert cmds[..n][i] == cmds[i];
      }
      UnsupportedTotal(cmds[..n], out[..n]);
      assert Corresponds(cmds[n], n, out[n]) && AdvisoryExec(cmds[n]) == 0;
    }
  }

  /** What the mapper makes of a plan of n tensors, T tiles and L layers: 2n + 3T + 18L + T * ceil(L / 4) + 3
      commands, of which it marks exactly 15L + 3 as unsupported. */
  lemma {:induction false} MappedCounts(p: PlanInput, model: string, session: string)
    requires MapPlan(PlanOf(p, model, session), false).Ok?
    ensures var out := MapPlan(PlanOf(p, model, session), false).value;
            && |out| == 2 * |p.tensors| + 3 * p.Tiles() + 18 * p.Layers() + p.Tiles() * ((p.Layers() + 3) / 4) + 3
            && Total(out, Unsupported) == 15 * p.Layers() + 3
  {
    hide Planned;
    hide MapPlan;
    hide Total;
    hide NoAdvisoryExec;
    hide Corresponds;
    hide PlanAccepted;
    MapPlanIff(PlanOf(p, model, session), false);
    PlannedPhases(p);
    PlanCounts(p);
    UnsupportedTotal(Planned(p).cmds, MapPlan(PlanOf(p, model, session), false).value);
  }

  ghost predicate AllPlaced(ts: seq<PlanTensor>) {
    forall i :: 0 <= i < |ts| ==> ts[i].status == "placed"
  }

  lemma {:induction false} PlacementNotesIff(ts: seq<PlanTensor>)
    ensures PlacementNotes(ts) == [] <==> AllPlaced(ts)
  {
    if |ts| > 0 {
      PlacementNotesIff(ts[..|ts| - 1]);
      assert AllPlaced(ts) <==> AllPlaced(ts[..|ts| - 1]) && ts[|ts| - 1].status == "placed";
    }
  }

  lemma {:induction false} LayerNotesIff(p: PlanInput, n: nat)
    ensures LayerNotes(p, n) == [] <==> n == 0 || p.policy != "head_wise" || p.partialRoutes != []
  {
    if n > 0 {
      LayerNotesIff(p, n - 1);
    }
  }

  /** When a plan is marked as passed, in either mode. */
  lemma {:induction false} PassesIff(p: PlanInput, strict: bool)
    ensures StatusOf(p, strict).PlanPass? <==>
      && ErrorCount(p.tensors, p.tileCount) == 0 && SupportedPolicy(p.policy) && AllPlaced(p.tensors)
      && (p.Layers() == 0 || p.policy != "head_wise" || p.partialRoutes != [])
    ensures StatusOf(p, strict).PlanWarn? ==> !strict
  {
    PlacementNotesIff(p.tensors);
    LayerNotesIff(p, p.Layers());
    hide SupportedPolicy;
    hide ErrorCount;
    hide PlacementNotes;
    hide LayerNotes;
    hide AllPlaced;
  }

  /** The mapper does not read the status.  A plan that did not fail is accepted exactly when there is a tile,
      both ids are given and no owner is negative. */
  lemma {:induction false} StatusAndMapper(p: PlanInput, strict: bool, model: string, session: string)
    requires !StatusOf(p, strict).PlanFail?
    ensures MapPlan(PlanOf(p, model, session), false).Ok?
       <==> p.tileCount >= 1 && model != "" && session != "" && OwnersNonNegative(p.tensors)
  {
    NoErrorsOwners(p.tensors, p.tileCount);
    PlannerToMapper(p, model, session);
    hide MapPlan;
    hide PlanOf;
    hide ErrorCount;
    hide OwnersNonNegative;
    hide OwnersOnTiles;
  }

  /** One tensor on one tile, no layers. */
  function OneTensor(owner: int, routing: string): PlanInput {
    PlanInput(1, 0, "layer_wise", 64, 256, 100, "f32",
              [PlanTensor(0, "w", Some(owner), "placed", 0, "f32", routing, "other")], [], [], [], [], true)
  }

  lemma {:induction false} OneTensorStatus(owner: int, routing: string, strict: bool)
    ensures StatusOf(OneTensor(owner, routing), strict)
         == if owner >= 1 || routing != "none" then PlanFail else PlanPass
    ensures OwnersOnTiles(OneTensor(owner, routing).tensors, 1) <==> owner == 0
  {
    var p := OneTensor(owner, routing);
    PassesIff(p, strict);
    assert p.tensors[0].owner == Some(owner);
    assert p.tensors[..0] == [];
    assert ErrorCount(p.tensors, 1) == ErrorCount([], 1) + TensorErrors(p.tensors[0], 1);
    assert SupportedPolicy("layer_wise");
    assert !KnownReduction("other");
  }

  /** Status and acceptance part both ways: a passed plan with a negative owner is refused, and a failed plan
      with an unknown reduction is accepted. */
  lemma {:induction false} StatusIsNotAcceptance()
    ensures StatusOf(OneTensor(-1, "none"), true).PlanPass? && MapPlan(PlanOf(OneTensor(-1, "none"), "m", "s"), false).Err?
    ensures StatusOf(OneTensor(0, "needed"), false).PlanFail? && MapPlan(PlanOf(OneTensor(0, "needed"), "m", "s"), false).Ok?
  {
    OneTensorStatus(-1, "none", true);
    OneTensorStatus(0, "needed", false);
    PlannerToMapper(OneTensor(-1, "none"), "m", "s");
    PlannerToMapper(OneTensor(0, "needed"), "m", "s");
    hide MapPlan;
    hide PlanOf;
    hide StatusOf;
    hide OwnersOnTiles;
  }

  /** Only setup barriers are advisory. */
  function AdvisoryExec(c: ExecCommand): int {
    if c.spec.op.Exec() && Advisory(c.spec.phase) then 1 else 0
  }

  ghost predicate NoAdvisoryExec(cmds: seq<ExecCommand>) {
    forall i :: 0 <= i < |cmds| ==> AdvisoryExec(cmds[i]) == 0
  }

  lemma {:induction false} PlannedPhases(p: PlanInput)
    ensures NoAdvisoryExec(Planned(p).cmds)
  {
    hide LoadOwners;
    hide OnEach;
    hide ChainTo;
    hide LayersTo;
    hide NoAdvisoryExec;
    hide LmHeadSpecs;
    SetupPhases(p);
    LayersPhases(SetupState(p), p, p.Layers());
    var layers := LayersTo(SetupState(p), p, p.Layers());
    LayerSpecsOk(p, 0);
    ChainPhases(layers, HeadTile(p), -1, LmHeadSpecs(p), |LmHeadSpecs(p)|);
    var head := Chain(layers, HeadTile(p), -1, LmHeadSpecs(p));
    EachPhases(head.(nextFence := head.nextFence + 1), -1, QuerySpec(), head.nextFence, 0, p.Tiles());
  }

  lemma {:induction false} SetupPhases(p: PlanInput)
    ensures NoAdvisoryExec(SetupState(p).cmds)
  {
    assert NoAdvisoryExec(Gen([], 1, 1).cmds);
    hide LoadOwners;
    hide OnEach;
    hide NoAdvisoryExec;
    var os := Sort(Owners(p.tensors), IntOrder());
    LoadPhases(Gen([], 1, 1), p.tensors, os, |os|);
    var g := LoadAll(Gen([], 1, 1), p.tensors);
    EachPhases(g.(nextFence := g.nextFence + 1), -1, BarrierSpec(p), g.nextFence, 0, p.Tiles());
    var barriers := Broadcast(g, -1, BarrierSpec(p), 0, p.Tiles());
    EachPhases(barriers.(nextFence := barriers.nextFence + 1), -1, TraceSpec(), barriers.nextFence, g.nextFence, p.Tiles());
  }

  lemma {:induction false} EachPhases(g: Gen, layer: int, spec: OpSpec, fence: int, dep: int, n: nat)
    requires NoAdvisoryExec(g.cmds) && !spec.op.Exec()
    ensures NoAdvisoryExec(OnEach(g, layer, spec, fence, dep, n).cmds)
  {
    if n > 0 {
      EachPhases(g, layer, spec, fence, dep, n - 1);
    }
  }

  lemma {:induction false} ChainPhases(g: Gen, tile: int, layer: int, specs: seq<OpSpec>, k: nat)
    requires NoAdvisoryExec(g.cmds) && SpecsOk(specs) && k <= |specs|
    ensures NoAdvisoryExec(ChainTo(g, tile, layer, specs, k).cmds)
  {
    hide SpecOk;
    if k > 0 {
      ChainPhases(g, tile, layer, specs, k - 1);
    }
  }

  lemma {:induction false} LoadPhases(g: Gen, ts: seq<PlanTensor>, os: seq<int>, k: nat)
    requires NoAdvisoryExec(g.cmds) && k <= |os|
    ensures NoAdvisoryExec(LoadOwners(g, ts, os, k).cmds)
  {
    hide NoAdvisoryExec;
    hide Sort;
    if k > 0 {
      LoadPhases(g, ts, os, k - 1);
      var h, mine := LoadOwners(g, ts, os, k - 1), Sort(OwnedBy(ts, os[k - 1]), IdOrder());
      TilePhases(h, os[k - 1], mine, |mine|);
      TilePhases(LoadsTo(h, os[k - 1], mine, |mine|), os[k - 1], mine, |mine|);
    }
  }

  lemma {:induction false} TilePhases(g: Gen, tile: int, ts: seq<PlanTensor>, k: nat)
    requires NoAdvisoryExec(g.cmds) && k <= |ts|
    ensures NoAdvisoryExec(LoadsTo(g, tile, ts, k).cmds) && NoAdvisoryExec(ValidatesTo(g, tile, ts, k).cmds)
  {
    if k > 0 {
      TilePhases(g, tile, ts, k - 1);
    }
  }

  lemma {:induction false} LayersPhases(g: Gen, p: PlanInput, n: nat)
    requires NoAdvisoryExec(g.cmds)
    ensures NoAdvisoryExec(LayersTo(g, p, n).cmds)
  {
    hide LayerSpecs;
    hide LayerTile;
    hide ChainTo;
    hide OnEach;
    hide NoAdvisoryExec;
    if n > 0 {
      LayersPhases(g, p, n - 1);
      LayerSpecsOk(p, n - 1);
      hide SpecsOk;
      var h := LayersTo(g, p, n - 1);
      ChainPhases(h, LayerTile(p, n - 1), n - 1, LayerSpecs(p, n - 1), 18);
      var chained := Chain(h, LayerTile(p, n - 1), n - 1, LayerSpecs(p, n - 1));
      EachPhases(chained.(nextFence := chained.nextFence + 1), n - 1, TraceSpec(), chained.nextFence, 0, p.Tiles());
    }
  }

  // --------------------------------------------------------- next consumers

  function Unwrapped(out: seq<MappedCommand>): (cs: seq<CP.Command>)
    ensures |cs| == |out|
  {
    seq(|out|, i requires 0 <= i < |out| => out[i].cmd)
  }

  lemma {:induction false} WellPlacedIsAccepted(cs: seq<CP.Command>, tileCount: int, n: nat)
    requires n <= |cs| && forall i :: 0 <= i < |cs| ==> cs[i].commandId == i + 1 && 0 <= cs[i].tileId < tileCount && cs[i].fenceId >= 0
    ensures CP.CheckCommands(cs, tileCount, false, n).Ok?
  {
    hide CP.Complaints;
    if n > 0 {
      WellPlacedIsAccepted(cs, tileCount, n - 1);
    }
  }

  /** An accepted plan stays acceptable downstream: what the mapper makes of it passes the replay tool's
      non-strict check and the route mapper's check. */
  lemma {:induction false} MappedPlanIsUsable(p: PlanInput, model: string, session: string, header: CP.PlanHeader)
    requires MapPlan(PlanOf(p, model, session), false).Ok?
    requires header.tileCount == p.tileCount
    ensures var plan := CP.Plan(CP.PLAN_VERSION, header, Unwrapped(MapPlan(PlanOf(p, model, session), false).value));
            CP.CheckPlan(plan, false).Ok? && CP.MapperCheck(plan, false).Ok?
  {
    var plan, out := PlanOf(p, model, session), MapPlan(PlanOf(p, model, session), false).value;
    MapPlanIff(plan, false);
    PlannedGood(p);
    PlanCounts(p);
    TilesIff(p);
    PlannerToMapper(p, model, session);
    hide MapPlan;
    hide Planned;
    hide OwnersOnTiles;
    hide PlannerCounts.CountExec;
    forall i | 0 <= i < |out|
      ensures out[i].cmd.commandId == i + 1 && 0 <= out[i].cmd.tileId < p.tileCount && out[i].cmd.fenceId >= 0
    {
      assert Corresponds(plan.commands[i], i, out[i]);
      assert InPlace(plan.commands, i);
    }
    WellPlacedIsAccepted(Unwrapped(out), p.tileCount, |out|);
    CP.MapperAccepts(Unwrapped(out), p.tileCount, |out|);
    hide CP.CheckCommands;
    hide CP.MapperCheckCommands;
  }
}
