/** The execution planner: load phase, setup, layers, language-model head and final query. */
module ExecutionPlan {
  import opened Common
  import opened Tally
  import opened Decimal

  datatype Phase =
    | DeviceProbe | TileEnumeration | MemoryAllocate | LoadPhase | ValidatePhase | PrefillSetup | PrefillExec | DecodeStep
    | KvAppendPhase | KvReadPhase | FabricSendPhase | FabricReducePhase | TracePhase | QueryPhase | CleanupPhase | ResetPhase
    | OtherPhase(name: string)

  datatype Op =
    | LoadTensor | ValidateTensor | ExecMatmul | ExecRmsnorm | ExecRope | ExecAttention | ExecSwiglu | ExecSoftmax | ExecResidual
    | KvAppend | KvRead | FabricSend | FabricReduce | TileBarrier | TraceSnapshot | QueryCounters | Reset
    | OtherOp(name: string)
  {
    predicate Exec() {
      ExecMatmul? || ExecRmsnorm? || ExecRope? || ExecAttention? || ExecSwiglu? || ExecSoftmax? || ExecResidual?
    }

    predicate NeedsTensor() {
      LoadTensor? || ValidateTensor? || ExecMatmul? || ExecRmsnorm?
    }
  }

  datatype Buffer = Buffer(region: string, bytes: int, dtype: string)

  /** What a command does, without its place in the plan. */
  datatype OpSpec = OpSpec(
    phase: Phase, op: Op, deps: seq<string>, inputs: seq<Buffer>, outputs: seq<Buffer>,
    routes: seq<int>, reductions: seq<int>, traceFlags: int)

  datatype ExecCommand = ExecCommand(id: int, tile: int, layer: int, spec: OpSpec, fence: int, dep: int)

  datatype PlanTensor = PlanTensor(
    tensorId: int, name: string, owner: Option<int>, status: string, packedBytes: int, dtype: string,
    routing: string, reduction: string)

  datatype PlanInput = PlanInput(
    tileCount: int, nLayers: int, policy: string, dModel: int, ffnHidden: int, vocabSize: int, dtype: string,
    tensors: seq<PlanTensor>, partialRoutes: seq<int>, logitsRoutes: seq<int>, sendRoutes: seq<int>, barrierRoutes: seq<int>,
    prefill: bool)
  {
    /** How often `range(tile_count)` and `range(n_layers)` run. */
    function Tiles(): nat {
      if tileCount < 0 then 0 else tileCount
    }

    function Layers(): nat {
      if nLayers < 0 then 0 else nLayers
    }

    function ExecPhase(): Phase {
      if prefill then PrefillExec else DecodeStep
    }

    function Staging(elements: int): Buffer {
      Buffer("STAGING", elements * DtypeBytes(dtype), dtype)
    }
  }

  function DtypeBytes(dtype: string): int {
    if dtype == "q8" || dtype == "q4" then 1 else 4
  }

  // ------------------------------------------------------------- validation

  predicate KnownReduction(r: string) {
    r == "none" || r == "sum" || r == "concat" || r == "max" || r == "topk" || r == "pass_through"
  }

  /** Errors of one tensor; the sign of the owner is not looked at. */
  function TensorErrors(t: PlanTensor, tileCount: int): nat {
    (if t.owner.None? then 1 else if t.owner.value >= tileCount then 1 else 0)
    + if t.routing != "none" && !KnownReduction(t.reduction) then 1 else 0
  }

  function ErrorCount(ts: seq<PlanTensor>, tileCount: int): nat {
    if |ts| == 0 then 0 else ErrorCount(ts[..|ts| - 1], tileCount) + TensorErrors(ts[|ts| - 1], tileCount)
  }

  /** Owner as the load phase groups it. */
  function OwnerOf(t: PlanTensor): int {
    t.owner.GetOr(0)
  }

  /** The last tensor of that name, as the name index keeps it. */
  function FindByName(ts: seq<PlanTensor>, name: string): Option<PlanTensor> {
    if |ts| == 0 then None
    else if ts[|ts| - 1].name == name && name != "" then Some(ts[|ts| - 1])
    else FindByName(ts[..|ts| - 1], name)
  }

  // ------------------------------------------------------------- generation

  /** The command list and the two counters shared by all generators. */
  datatype Gen = Gen(cmds: seq<ExecCommand>, nextId: int, nextFence: int)

  /** One command under its own new fence. */
  function Emit(g: Gen, tile: int, layer: int, spec: OpSpec, dep: int): Gen {
    Gen(g.cmds + [ExecCommand(g.nextId, tile, layer, spec, g.nextFence, dep)], g.nextId + 1, g.nextFence + 1)
  }

  /** Commands for the tiles below n under the fence that was taken for all of them. */
  function OnEach(g: Gen, layer: int, spec: OpSpec, fence: int, dep: int, n: nat): Gen {
    if n == 0 then g
    else
      var h := OnEach(g, layer, spec, fence, dep, n - 1);
      Gen(h.cmds + [ExecCommand(h.nextId, n - 1, layer, spec, fence, dep)], h.nextId + 1, h.nextFence)
  }

  /** Take one fence and use it on every tile. */
  function Broadcast(g: Gen, layer: int, spec: OpSpec, dep: int, tiles: nat): Gen {
    OnEach(g.(nextFence := g.nextFence + 1), layer, spec, g.nextFence, dep, tiles)
  }

  function LoadSpec(t: PlanTensor): OpSpec {
    OpSpec(LoadPhase, LoadTensor, [t.name], [], [Buffer("TENSOR", t.packedBytes, t.dtype)], [], [], 0)
  }

  function ValidateSpec(t: PlanTensor): OpSpec {
    OpSpec(ValidatePhase, ValidateTensor, [t.name], [Buffer("TENSOR", t.packedBytes, t.dtype)], [], [], [], 0)
  }

  function LoadsTo(g: Gen, tile: int, ts: seq<PlanTensor>, k: nat): Gen
    requires k <= |ts|
  {
    if k == 0 then g else Emit(LoadsTo(g, tile, ts, k - 1), tile, -1, LoadSpec(ts[k - 1]), 0)
  }

  function ValidatesTo(g: Gen, tile: int, ts: seq<PlanTensor>, k: nat): Gen
    requires k <= |ts|
  {
    if k == 0 then g else Emit(ValidatesTo(g, tile, ts, k - 1), tile, -1, ValidateSpec(ts[k - 1]), 0)
  }

  function LoadTile(g: Gen, tile: int, ts: seq<PlanTensor>): Gen {
    ValidatesTo(LoadsTo(g, tile, ts, |ts|), tile, ts, |ts|)
  }

  /** The owners in order of first appearance. */
  function Owners(ts: seq<PlanTensor>): (os: seq<int>)
    ensures forall t :: t in ts ==> OwnerOf(t) in os
  {
    if |ts| == 0 then []
    else
      var os := Owners(ts[..|ts| - 1]);
      var o := OwnerOf(ts[|ts| - 1]);
      assert ts == ts[..|ts| - 1] + [ts[|ts| - 1]];
      if o in os then os else os + [o]
  }

  function OwnedBy(ts: seq<PlanTensor>, tile: int): seq<PlanTensor> {
    if |ts| == 0 then []
    else OwnedBy(ts[..|ts| - 1], tile) + if OwnerOf(ts[|ts| - 1]) == tile then [ts[|ts| - 1]] else []
  }

  function IntOrder(): (int, int) -> bool {
    (a: int, b: int) => a <= b
  }

  function IdOrder(): (PlanTensor, PlanTensor) -> bool {
    (a: PlanTensor, b: PlanTensor) => a.tensorId <= b.tensorId
  }

  /** The load phase over the first k of the sorted owners. */
  function LoadOwners(g: Gen, ts: seq<PlanTensor>, os: seq<int>, k: nat): Gen
    requires k <= |os|
  {
    if k == 0 then g
    else LoadTile(LoadOwners(g, ts, os, k - 1), os[k - 1], Sort(OwnedBy(ts, os[k - 1]), IdOrder()))
  }

  function LoadAll(g: Gen, ts: seq<PlanTensor>): Gen {
    var os := Sort(Owners(ts), IntOrder());
    LoadOwners(g, ts, os, |os|)
  }

  function BarrierSpec(p: PlanInput): OpSpec {
    OpSpec(PrefillSetup, TileBarrier, [], [], [], p.barrierRoutes, [], 0)
  }

  function TraceSpec(): OpSpec {
    OpSpec(TracePhase, TraceSnapshot, [], [], [], [], [], 1)
  }

  function QuerySpec(): OpSpec {
    OpSpec(QueryPhase, QueryCounters, [], [], [], [], [], 0)
  }

  /** Barriers on all tiles, then traces that wait for them. */
  function Setup(g: Gen, p: PlanInput): Gen {
    Broadcast(Broadcast(g, -1, BarrierSpec(p), 0, p.Tiles()), -1, TraceSpec(), g.nextFence, p.Tiles())
  }

  /** A chain: every command takes a new fence and waits for the fence of the one before it. */
  function ChainTo(g: Gen, tile: int, layer: int, specs: seq<OpSpec>, k: nat): Gen
    requires k <= |specs|
  {
    if k == 0 then g
    else
      var h := ChainTo(g, tile, layer, specs, k - 1);
      Emit(h, tile, layer, specs[k - 1], if k == 1 then 0 else h.nextFence - 1)
  }

  function Chain(g: Gen, tile: int, layer: int, specs: seq<OpSpec>): Gen {
    ChainTo(g, tile, layer, specs, |specs|)
  }

  function Weight(layer: nat, suffix: string): string {
    "layers." + Digits(layer) + suffix
  }

  /** An operation on activations: one staging buffer in, one out. */
  function Step(p: PlanInput, op: Op, deps: seq<string>): OpSpec {
    OpSpec(p.ExecPhase(), op, deps, [p.Staging(p.dModel)], [p.Staging(p.dModel)], [], [], 0)
  }

  /** Operations 1 to 11 of a layer: attention. */
  function AttentionSpecs(p: PlanInput, layer: nat): (s: seq<OpSpec>)
    ensures |s| == 11
  {
    var act := p.Staging(p.dModel);
    var cache := act.(region := "KV_CACHE");
    [Step(p, ExecRmsnorm, [Weight(layer, ".attention_norm.weight")]),
     Step(p, ExecMatmul, [Weight(layer, ".attention.wq.weight")]),
     Step(p, ExecMatmul, [Weight(layer, ".attention.wk.weight")]),
     Step(p, ExecMatmul, [Weight(layer, ".attention.wv.weight")]),
     Step(p, ExecRope, []),
     Step(p, ExecRope, []),
     OpSpec(KvAppendPhase, KvAppend, [], [act], [cache], [], [], 0),
     OpSpec(KvReadPhase, KvRead, [], [cache], [act], [], [], 0),
     Step(p, ExecAttention, []).(routes := if p.policy == "head_wise" then p.partialRoutes else [],
                                 reductions := if p.policy == "head_wise" then [1] else []),
     Step(p, ExecMatmul, [Weight(layer, ".attention.wo.weight")]),
     Step(p, ExecResidual, []).(inputs := [act, act], routes := if p.policy == "layer_wise" then p.sendRoutes else [])]
  }

  /** Operations 12 to 18 of a layer: feed-forward and the closing barrier. */
  function FfnSpecs(p: PlanInput, layer: nat): (s: seq<OpSpec>)
    ensures |s| == 7
  {
    var act, ffn := p.Staging(p.dModel), p.Staging(p.ffnHidden);
    [Step(p, ExecRmsnorm, [Weight(layer, ".ffn_norm.weight")]),
     Step(p, ExecMatmul, [Weight(layer, ".feed_forward.w1.weight")]).(outputs := [ffn]),
     Step(p, ExecMatmul, [Weight(layer, ".feed_forward.w3.weight")]).(outputs := [ffn]),
     OpSpec(p.ExecPhase(), ExecSwiglu, [], [ffn, ffn], [ffn], [], [], 0),
     OpSpec(p.ExecPhase(), ExecMatmul, [Weight(layer, ".feed_forward.w2.weight")], [ffn], [act],
            if p.policy == "row_split" then p.partialRoutes else [], [], 0),
     Step(p, ExecResidual, []).(inputs := [act, act]),
     OpSpec(p.ExecPhase(), TileBarrier, [], [], [], [], [], 0)]
  }

  function LayerSpecs(p: PlanInput, layer: nat): (s: seq<OpSpec>)
    ensures |s| == 18
  {
    AttentionSpecs(p, layer) + FfnSpecs(p, layer)
  }

  function LmHeadSpecs(p: PlanInput): (s: seq<OpSpec>)
    ensures |s| == 3
  {
    var act, logits := p.Staging(p.dModel), p.Staging(p.vocabSize);
    [Step(p, ExecRmsnorm, ["norm.weight"]),
     OpSpec(p.ExecPhase(), ExecMatmul, ["lm_head.weight"], [act], [logits], if p.policy == "lm_head_split" then p.logitsRoutes else [], [], 0),
     OpSpec(p.ExecPhase(), ExecSoftmax, [], [logits], [logits], [], [], 2)]
  }

  /** The owner of the layer's attention norm, or round robin. */
  function LayerTile(p: PlanInput, layer: nat): int {
    match FindByName(p.tensors, Weight(layer, ".attention_norm.weight"))
    case Some(t) => OwnerOf(t)
    case None => layer % (if p.tileCount > 1 then p.tileCount else 1)
  }

  function HeadTile(p: PlanInput): int {
    match FindByName(p.tensors, "norm.weight")
    case Some(t) => OwnerOf(t)
    case None =>
      match FindByName(p.tensors, "output_norm.weight")
      case Some(t) => OwnerOf(t)
      case None => 0
  }

  predicate Traced(p: PlanInput, layer: nat) {
    (layer + 1) % 4 == 0 || layer + 1 == p.nLayers
  }

  function LayerTo(g: Gen, p: PlanInput, layer: nat): Gen {
    var h := Chain(g, LayerTile(p, layer), layer, LayerSpecs(p, layer));
    if Traced(p, layer) then Broadcast(h, layer, TraceSpec(), 0, p.Tiles()) else h
  }

  function LayersTo(g: Gen, p: PlanInput, n: nat): Gen {
    if n == 0 then g else LayerTo(LayersTo(g, p, n - 1), p, n - 1)
  }

  function Planned(p: PlanInput): Gen {
    var setup := Setup(LoadAll(Gen([], 1, 1), p.tensors), p);
    var layers := LayersTo(setup, p, p.Layers());
    var head := Chain(layers, HeadTile(p), -1, LmHeadSpecs(p));
    Broadcast(head, -1, QuerySpec(), 0, p.Tiles())
  }

  // ------------------------------------------------------------ the program

  /** The lists `next_id`, `next_fence` and `commands` that the generators share. */
  class Planner {
    var cmds: seq<ExecCommand>
    var nextId: int
    var nextFence: int

    constructor ()
      ensures View() == Gen([], 1, 1)
    {
      cmds, nextId, nextFence := [], 1, 1;
    }

    function View(): Gen
      reads this
    {
      Gen(cmds, nextId, nextFence)
    }

    method TakeFence() returns (f: int)
      modifies `nextFence
      ensures f == old(nextFence) && View() == old(View()).(nextFence := f + 1)
    {
      f := nextFence;
      nextFence := nextFence + 1;
    }

    /** `_make_cmd`, appended to the list. */
    method MakeCmd(tile: int, layer: int, spec: OpSpec, fence: int, dep: int)
      modifies `cmds, `nextId
      ensures View() == Gen(old(cmds) + [ExecCommand(old(nextId), tile, layer, spec, fence, dep)], old(nextId) + 1, old(nextFence))
    {
      cmds := cmds + [ExecCommand(nextId, tile, layer, spec, fence, dep)];
      nextId := nextId + 1;
    }

    method GenerateBroadcast(layer: int, spec: OpSpec, dep: int, tiles: nat) returns (f: int)
      modifies this
      ensures f == old(nextFence) && View() == Broadcast(old(View()), layer, spec, dep, tiles)
    {
      f := TakeFence();
      ghost var g := View();
      for tile := 0 to tiles
        invariant View() == OnEach(g, layer, spec, f, dep, tile)
      {
        MakeCmd(tile, layer, spec, f, dep);
      }
    }

    method GenerateTile(tile: int, ts: seq<PlanTensor>)
      modifies this
      ensures View() == LoadTile(old(View()), tile, ts)
    {
      for k := 0 to |ts|
        invariant View() == LoadsTo(old(View()), tile, ts, k)
      {
        var f := TakeFence();
        MakeCmd(tile, -1, LoadSpec(ts[k]), f, 0);
      }
      ghost var loaded := View();
      for k := 0 to |ts|
        invariant View() == ValidatesTo(loaded, tile, ts, k)
      {
        var f := TakeFence();
        MakeCmd(tile, -1, ValidateSpec(ts[k]), f, 0);
      }
    }

    /** `_generate_load_phase`. */
    method GenerateLoadPhase(ts: seq<PlanTensor>)
      modifies this
      ensures View() == LoadAll(old(View()), ts)
    {
      hide Owners;
      hide OwnedBy;
      hide Sort;
      hide LoadTile;
      var byTile, owners := GroupByOwner(ts);
      var os := Sort(owners, IntOrder());
      for k := 0 to |os|
        invariant View() == LoadOwners(old(View()), ts, os, k)
      {
        SortedMember(owners, k);
        GenerateTile(os[k], Sort(byTile[os[k]], IdOrder()));
      }
    }

    /** Emit the k-th operation of a chain; `dep` is the fence of the one before it. */
    method ChainNext(tile: int, layer: int, specs: seq<OpSpec>, k: nat, dep: int, ghost start: Gen) returns (f: int)
      requires k < |specs| && View() == ChainTo(start, tile, layer, specs, k)
      requires dep == if k == 0 then 0 else nextFence - 1
      modifies this
      ensures View() == ChainTo(start, tile, layer, specs, k + 1) && f == nextFence - 1
    {
      f := TakeFence();
      MakeCmd(tile, layer, specs[k], f, dep);
    }

    /** `_generate_layer_plan`: eighteen commands in a row. */
    method GenerateLayerPlan(p: PlanInput, layer: nat)
      modifies this
      ensures View() == Chain(old(View()), LayerTile(p, layer), layer, LayerSpecs(p, layer))
    {
      hide *;
      var tile, specs := LayerTile(p, layer), LayerSpecs(p, layer);
      ghost var start := View();
      ChainEnds(start, tile, layer, specs);
      var f := ChainNext(tile, layer, specs, 0, 0, start);
      f := ChainNext(tile, layer, specs, 1, f, start);
      f := ChainNext(tile, layer, specs, 2, f, start);
      f := ChainNext(tile, layer, specs, 3, f, start);
      f := ChainNext(tile, layer, specs, 4, f, start);
      f := ChainNext(tile, layer, specs, 5, f, start);
      f := ChainNext(tile, layer, specs, 6, f, start);
      f := ChainNext(tile, layer, specs, 7, f, start);
      f := ChainNext(tile, layer, specs, 8, f, start);
      f := ChainNext(tile, layer, specs, 9, f, start);
      f := ChainNext(tile, layer, specs, 10, f, start);
      f := ChainNext(tile, layer, specs, 11, f, start);
      f := ChainNext(tile, layer, specs, 12, f, start);
      f := ChainNext(tile, layer, specs, 13, f, start);
      f := ChainNext(tile, layer, specs, 14, f, start);
      f := ChainNext(tile, layer, specs, 15, f, start);
      f := ChainNext(tile, layer, specs, 16, f, start);
      f := ChainNext(tile, layer, specs, 17, f, start);
    }

    /** `_generate_lm_head_plan`. */
    method GenerateLmHeadPlan(p: PlanInput)
      modifies this
      ensures View() == Chain(old(View()), HeadTile(p), -1, LmHeadSpecs(p))
    {
      hide *;
      var tile, specs := HeadTile(p), LmHeadSpecs(p);
      ghost var start := View();
      ChainEnds(start, tile, -1, specs);
      var f := ChainNext(tile, -1, specs, 0, 0, start);
      f := ChainNext(tile, -1, specs, 1, f, start);
      f := ChainNext(tile, -1, specs, 2, f, start);
    }

    /** The command list of `plan`. */
    method Plan(p: PlanInput)
      requires View() == Gen([], 1, 1)
      modifies this
      ensures View() == Planned(p)
    {
      hide LoadAll;
      hide Chain;
      hide Broadcast;
      hide LayerSpecs;
      hide LmHeadSpecs;
      hide LayerTile;
      hide HeadTile;
      GenerateLoadPhase(p.tensors);
      var f := GenerateBroadcast(-1, BarrierSpec(p), 0, p.Tiles());
      var g := GenerateBroadcast(-1, TraceSpec(), f, p.Tiles());
      ghost var setup := View();
      for layer := 0 to p.Layers()
        invariant View() == LayersTo(setup, p, layer)
      {
        GenerateLayerPlan(p, layer);
        if Traced(p, layer) {
          g := GenerateBroadcast(layer, TraceSpec(), 0, p.Tiles());
        }
      }
      GenerateLmHeadPlan(p);
      g := GenerateBroadcast(-1, QuerySpec(), 0, p.Tiles());
    }
  }

  lemma {:induction false} SortedMember(os: seq<int>, k: nat)
    requires k < |os|
    ensures Sort(os, IntOrder())[k] in os
  {
    SortPermutes(os, IntOrder());
    assert Sort(os, IntOrder())[k] in multiset(os);
  }

  lemma {:induction false} ChainEnds(g: Gen, tile: int, layer: int, specs: seq<OpSpec>)
    ensures ChainTo(g, tile, layer, specs, 0) == g
    ensures ChainTo(g, tile, layer, specs, |specs|) == Chain(g, tile, layer, specs)
  {
  }

  /** The grouping loop of the load phase. */
  method GroupByOwner(ts: seq<PlanTensor>) returns (byTile: map<int, seq<PlanTensor>>, owners: seq<int>)
    ensures owners == Owners(ts)
    ensures forall o :: o in owners <==> o in byTile
    ensures forall o :: o in byTile ==> byTile[o] == OwnedBy(ts, o)
  {
    byTile, owners := map[], [];
    assert ts[..0] == [];
    assert ByOwner(byTile, owners, ts[..0]);
    hide ByOwner;
    for i := 0 to |ts|
      invariant ByOwner(byTile, owners, ts[..i])
    {
      TakeNext(ts, i);
      var o := OwnerOf(ts[i]);
      ByOwnerSame(byTile, owners, ts[..i]);
      if o in byTile {
        ByOwnerKnown(byTile, owners, ts[..i], ts[i]);
        byTile := byTile[o := byTile[o] + [ts[i]]];
      } else {
        ByOwnerNew(byTile, owners, ts[..i], ts[i]);
        byTile := byTile[o := [ts[i]]];
        owners := owners + [o];
      }
    }
    TakeAll(ts);
    ByOwnerSame(byTile, owners, ts);
  }

  ghost predicate ByOwner(byTile: map<int, seq<PlanTensor>>, owners: seq<int>, ts: seq<PlanTensor>) {
    && owners == Owners(ts)
    && (forall o :: o in owners <==> o in byTile)
    && (forall o :: o in byTile ==> byTile[o] == OwnedBy(ts, o))
    && (forall o :: o !in byTile ==> OwnedBy(ts, o) == [])
  }

  lemma {:induction false} ByOwnerSame(byTile: map<int, seq<PlanTensor>>, owners: seq<int>, ts: seq<PlanTensor>)
    requires ByOwner(byTile, owners, ts)
    ensures owners == Owners(ts) && (forall o :: o in owners <==> o in byTile)
    ensures forall o :: o in byTile ==> byTile[o] == OwnedBy(ts, o)
  {
  }

  lemma {:induction false} ByOwnerKnown(byTile: map<int, seq<PlanTensor>>, owners: seq<int>, ts: seq<PlanTensor>, t: PlanTensor)
    requires ByOwner(byTile, owners, ts) && OwnerOf(t) in byTile
    ensures ByOwner(byTile[OwnerOf(t) := byTile[OwnerOf(t)] + [t]], owners, ts + [t])
  {
    OwnersNext(ts, t);
    hide Owners;
    hide OwnedBy;
    hide OwnerOf;
  }

  lemma {:induction false} ByOwnerNew(byTile: map<int, seq<PlanTensor>>, owners: seq<int>, ts: seq<PlanTensor>, t: PlanTensor)
    requires ByOwner(byTile, owners, ts) && OwnerOf(t) !in byTile
    ensures ByOwner(byTile[OwnerOf(t) := [t]], owners + [OwnerOf(t)], ts + [t])
  {
    OwnersNext(ts, t);
    hide Owners;
    hide OwnedBy;
    hide OwnerOf;
  }

  lemma {:induction false} OwnersNext(ts: seq<PlanTensor>, t: PlanTensor)
    ensures Owners(ts + [t]) == if OwnerOf(t) in Owners(ts) then Owners(ts) else Owners(ts) + [OwnerOf(t)]
    ensures forall o :: OwnedBy(ts + [t], o) == if OwnerOf(t) == o then OwnedBy(ts, o) + [t] else OwnedBy(ts, o)
  {
    assert (ts + [t])[..|ts|] == ts;
    hide OwnerOf;
  }

  // ----------------------------------------------------------------- status

  datatype Note = UnknownPolicy | NotPlaced(at: nat) | NoReduceRoutes(layer: nat)

  predicate SupportedPolicy(s: string) {
    s == "layer_wise" || s == "tensor_wise" || s == "row_split" || s == "column_split" || s == "head_wise"
    || s == "lm_head_split" || s == "embedding_split"
  }

  function PlacementNotes(ts: seq<PlanTensor>): seq<Note> {
    if |ts| == 0 then []
    else PlacementNotes(ts[..|ts| - 1]) + if ts[|ts| - 1].status != "placed" then [NotPlaced(|ts| - 1)] else []
  }

  function LayerNotes(p: PlanInput, n: nat): seq<Note> {
    if n == 0 then [] else LayerNotes(p, n - 1) + if p.policy == "head_wise" && p.partialRoutes == [] then [NoReduceRoutes(n - 1)] else []
  }

  function Notes(p: PlanInput): seq<Note> {
    (if SupportedPolicy(p.policy) then [] else [UnknownPolicy]) + PlacementNotes(p.tensors) + LayerNotes(p, p.Layers())
  }

  datatype PlanStatus = PlanPass | PlanWarn | PlanFail

  function StatusOf(p: PlanInput, strict: bool): PlanStatus {
    if ErrorCount(p.tensors, p.tileCount) > 0 then PlanFail
    else if |Notes(p)| > 0 then if strict then PlanFail else PlanWarn
    else PlanPass
  }
}
