module PlacementPlan {
  // From a tensor placement report to an AIMU command plan.

  import opened Common
  import opened Tally
  import opened CommandPlan

  // ------------------------------------------------------------- validation

  /** What `get` with a default sees: the default replaces an absent field but not a null one. */
  datatype Field<+T> = Absent | Null | Given(value: T)
  {
    function Get(default: T): Option<T> {
      match this
      case Absent => Some(default)
      case Null => None
      case Given(v) => Some(v)
    }
  }

  /** A tensor record of the placement report; None stands for a field that is missing or null. */
  datatype TensorRecord = TensorRecord(
    tensorId: Option<int>, tensorName: Option<string>, placementStatus: Option<string>, ownerTile: Option<int>,
    dtype: Option<string>, groupSize: Option<int>, quantization: Option<string>, packedBytes: Option<int>,
    scaleBytes: Option<int>, ownerAimu: Field<int>, sliceStart: Option<int>, checksum: Field<string>)

  /** A record that passed, with its defaults filled in. */
  datatype Placed = Placed(
    tensorId: int, tensorName: string, owner: int, aimu: Option<int>, dtype: string, quantization: string,
    groupSize: Option<int>, packedBytes: int, scaleBytes: int, sliceStart: int, checksum: Option<string>)
  {
    function Bytes(): int {
      packedBytes + scaleBytes
    }
  }

  datatype Screened = Accept(tensor: Placed) | Skip | Bad(reason: string)

  function Fill(t: TensorRecord): Placed
    requires t.tensorId.Some? && t.tensorName.Some? && t.ownerTile.Some? && t.dtype.Some?
  {
    Placed(t.tensorId.value, t.tensorName.value, t.ownerTile.value, t.ownerAimu.Get(t.ownerTile.value), t.dtype.value,
           if t.quantization.GetOr("") == "" then "none" else t.quantization.value, t.groupSize,
           t.packedBytes.GetOr(0), t.scaleBytes.GetOr(0), t.sliceStart.GetOr(0), t.checksum.Get("0x0000000000000000"))
  }

  /** `_validate_tensor`: the first problem decides. */
  function Screen(t: TensorRecord, tileCount: int, strict: bool): Screened {
    if t.tensorId.None? then Bad("missing 'tensor_id'")
    else if t.tensorName.None? then Bad("missing 'tensor_name'")
    else if t.placementStatus.None? then Bad("missing 'placement_status'")
    else if t.placementStatus.value != "placed" then if strict then Bad("not placed") else Skip
    else if t.ownerTile.None? then Bad("missing 'owner_tile'")
    else if !(0 <= t.ownerTile.value < tileCount) then Bad("owner_tile out of range")
    else if t.dtype.None? then Bad("missing 'dtype'")
    else if !SupportedDtype(t.dtype.value) then Bad("unsupported dtype")
    else if t.dtype.value == "q4" && t.groupSize.None? then Bad("q4 requires 'quantization_group_size'")
    else if t.dtype.value == "q4" && !SupportedGroupSize(t.groupSize.value) then Bad("q4 group size not supported")
    else Accept(Fill(t))
  }

  /** The placed tensors in report order, and the positions that drew a warning or an error. */
  datatype Screening = Screening(placed: seq<Placed>, warnings: seq<nat>, errors: seq<nat>)

  function ScreenAll(ts: seq<TensorRecord>, tileCount: int, strict: bool, n: nat): Screening
    requires n <= |ts|
  {
    if n == 0 then Screening([], [], [])
    else
      var s := ScreenAll(ts, tileCount, strict, n - 1);
      match Screen(ts[n - 1], tileCount, strict)
      case Accept(p) => s.(placed := s.placed + [p])
      case Skip => s.(warnings := s.warnings + [n - 1])
      case Bad(_) => s.(errors := s.errors + [n - 1])
  }

  // --------------------------------------------------------------- commands

  function LoadCommand(id: int, p: Placed, model: string, session: string): Command {
    Command(id, LoadTensorTile, p.owner, p.aimu, session, model, Some(p.tensorId), Some(p.tensorName), Some(p.dtype),
            Some(p.quantization), p.groupSize, p.packedBytes, p.scaleBytes, p.packedBytes + p.scaleBytes, 0, p.checksum, "")
  }

  function ValidateCommand(id: int, p: Placed, model: string, session: string, loadId: int): Command {
    Command(id, ValidateTensor, p.owner, p.aimu, session, model, Some(p.tensorId), Some(p.tensorName), Some(p.dtype),
            Some(p.quantization), p.groupSize, p.packedBytes, p.scaleBytes, p.packedBytes + p.scaleBytes, loadId, p.checksum, "")
  }

  /** A command that concerns no tensor. */
  function TileCommand(id: int, kind: CommandType, tile: int, model: string, session: string, fence: int): Command {
    Command(id, kind, tile, Some(tile), session, model, None, None, None, None, None, 0, 0, 0, fence, None, "")
  }

  function Group(placed: seq<Placed>, tile: int): (g: seq<Placed>)
    ensures forall i :: 0 <= i < |g| ==> g[i].owner == tile
  {
    if |placed| == 0 then []
    else Group(placed[..|placed| - 1], tile) + if placed[|placed| - 1].owner == tile then [placed[|placed| - 1]] else []
  }

  /** Tensor id, then slice start. */
  function PlacedOrder(): (Placed, Placed) -> bool {
    (a: Placed, b: Placed) => a.tensorId < b.tensorId || (a.tensorId == b.tensorId && a.sliceStart <= b.sliceStart)
  }

  function TileTensors(placed: seq<Placed>, tile: int): seq<Placed> {
    Sort(Group(placed, tile), PlacedOrder())
  }

  function Loads(first: int, ts: seq<Placed>, model: string, session: string): (cs: seq<Command>)
    ensures |cs| == |ts|
  {
    seq(|ts|, i requires 0 <= i < |ts| => LoadCommand(first + i, ts[i], model, session))
  }

  /** Validation of tensor i waits for its load, whose id is firstLoad + i. */
  function Validates(first: int, firstLoad: int, ts: seq<Placed>, model: string, session: string): (cs: seq<Command>)
    ensures |cs| == |ts|
  {
    seq(|ts|, i requires 0 <= i < |ts| => ValidateCommand(first + i, ts[i], model, session, firstLoad + i))
  }

  /** The commands of one tile: loads, validations, and a barrier behind the last validation. */
  function Block(first: int, tile: int, ts: seq<Placed>, model: string, session: string): (cs: seq<Command>)
    ensures |cs| == 2 * |ts| + 1
  {
    Loads(first, ts, model, session) + Validates(first + |ts|, first, ts, model, session)
    + [TileCommand(first + 2 * |ts|, TileBarrier, tile, model, session, if |ts| == 0 then 0 else first + 2 * |ts| - 1)]
  }

  /** The blocks of the used tiles below n. */
  function Blocks(placed: seq<Placed>, n: nat, model: string, session: string): seq<Command> {
    if n == 0 then []
    else
      var before := Blocks(placed, n - 1, model, session);
      if Group(placed, n - 1) == [] then before
      else before + Block(|before| + 1, n - 1, TileTensors(placed, n - 1), model, session)
  }

  function Commands(placed: seq<Placed>, tileCount: nat, model: string, session: string): seq<Command> {
    var blocks := Blocks(placed, tileCount, model, session);
    blocks + [TileCommand(|blocks| + 1, QueryCounters, 0, model, session, |blocks|),
              TileCommand(|blocks| + 2, TraceSnapshot, 0, model, session, |blocks|)]
  }

  /** `_build_commands`: errors in any record leave no plan. */
  function BuildPlan(ts: seq<TensorRecord>, tileCount: nat, strict: bool, model: string, session: string): Result<seq<Command>> {
    var s := ScreenAll(ts, tileCount, strict, |ts|);
    if |s.errors| > 0 then Err("placement report has invalid tensors") else Ok(Commands(s.placed, tileCount, model, session))
  }

  // ------------------------------------------------------------ the program

  ghost predicate GroupedByTile(byTile: map<int, seq<Placed>>, placed: seq<Placed>) {
    && (forall t :: t in byTile <==> Group(placed, t) != [])
    && (forall t :: t in byTile ==> byTile[t] == Group(placed, t))
  }

  lemma {:induction false} GroupSnoc(placed: seq<Placed>, p: Placed, tile: int)
    ensures Group(placed + [p], tile) == Group(placed, tile) + if p.owner == tile then [p] else []
  {
    assert (placed + [p])[..|placed|] == placed;
  }

  method AddToTile(byTile: map<int, seq<Placed>>, p: Placed, ghost placed: seq<Placed>) returns (byTile': map<int, seq<Placed>>)
    requires GroupedByTile(byTile, placed)
    ensures GroupedByTile(byTile', placed + [p])
  {
    hide Group;
    var before := if p.owner in byTile then byTile[p.owner] else [];
    byTile' := byTile[p.owner := before + [p]];
    forall t: int
      ensures Group(placed + [p], t) == Group(placed, t) + if p.owner == t then [p] else []
    {
      GroupSnoc(placed, p, t);
    }
  }

  /** The validation loop. */
  method ScreenTensors(ts: seq<TensorRecord>, tileCount: nat, strict: bool)
    returns (byTile: map<int, seq<Placed>>, warnings: seq<nat>, errors: seq<nat>, ghost placed: seq<Placed>)
    ensures warnings == ScreenAll(ts, tileCount, strict, |ts|).warnings && errors == ScreenAll(ts, tileCount, strict, |ts|).errors
    ensures placed == ScreenAll(ts, tileCount, strict, |ts|).placed
    ensures GroupedByTile(byTile, placed)
  {
    byTile, warnings, errors, placed := map[], [], [], [];
    hide Screen;
    for i := 0 to |ts|
      invariant ScreenAll(ts, tileCount, strict, i) == Screening(placed, warnings, errors)
      invariant GroupedByTile(byTile, placed)
    {
      hide GroupedByTile;
      match Screen(ts[i], tileCount, strict) {
        case Accept(p) =>
          byTile := AddToTile(byTile, p, placed);
          placed := placed + [p];
        case Skip =>
          warnings := warnings + [i];
        case Bad(_) =>
          errors := errors + [i];
      }
    }
  }

  /** The load, validate and barrier loops of one tile, continuing a plan. */
  method EmitBlock(commands: seq<Command>, cmdId: int, tile: int, ts: seq<Placed>, model: string, session: string)
    returns (commands': seq<Command>, cmdId': int)
    ensures commands' == commands + Block(cmdId, tile, ts, model, session)
    ensures cmdId' == cmdId + 2 * |ts| + 1
  {
    hide Loads;
    hide Validates;
    var loadIds, validateIds;
    commands', loadIds := EmitLoads(commands, cmdId, ts, model, session);
    cmdId' := cmdId + |ts|;
    commands', validateIds := EmitValidates(commands', cmdId', cmdId, loadIds, ts, model, session);
    cmdId' := cmdId' + |ts|;
    var lastValidate := if |validateIds| > 0 then validateIds[|validateIds| - 1] else 0;
    commands' := commands' + [TileCommand(cmdId', TileBarrier, tile, model, session, lastValidate)];
    cmdId' := cmdId' + 1;
  }

  /** One load per tensor, with consecutive ids. */
  method EmitLoads(commands: seq<Command>, cmdId: int, ts: seq<Placed>, model: string, session: string)
    returns (commands': seq<Command>, loadIds: seq<int>)
    ensures commands' == commands + Loads(cmdId, ts, model, session)
    ensures |loadIds| == |ts| && forall k :: 0 <= k < |ts| ==> loadIds[k] == cmdId + k
  {
    commands', loadIds := commands, [];
    ghost var loads := Loads(cmdId, ts, model, session);
    assert forall i :: 0 <= i < |ts| ==> loads[i] == LoadCommand(cmdId + i, ts[i], model, session);
    hide *;
    for i := 0 to |ts|
      invariant commands' == commands + loads[..i]
      invariant |loadIds| == i && forall k :: 0 <= k < i ==> loadIds[k] == cmdId + k
    {
      TakeNext(loads, i);
      commands' := commands' + [LoadCommand(cmdId + i, ts[i], model, session)];
      loadIds := loadIds + [cmdId + i];
    }
    TakeAll(loads);
  }

  /** One validation per tensor, waiting for its load. */
  method EmitValidates(commands: seq<Command>, cmdId: int, ghost firstLoad: int, loadIds: seq<int>, ts: seq<Placed>, model: string, session: string)
    returns (commands': seq<Command>, validateIds: seq<int>)
    requires |loadIds| == |ts| && forall k :: 0 <= k < |ts| ==> loadIds[k] == firstLoad + k
    ensures commands' == commands + Validates(cmdId, firstLoad, ts, model, session)
    ensures |validateIds| == |ts| && forall k :: 0 <= k < |ts| ==> validateIds[k] == cmdId + k
  {
    commands', validateIds := commands, [];
    ghost var validates := Validates(cmdId, firstLoad, ts, model, session);
    assert forall i :: 0 <= i < |ts| ==> validates[i] == ValidateCommand(cmdId + i, ts[i], model, session, firstLoad + i);
    hide *;
    for i := 0 to |ts|
      invariant commands' == commands + validates[..i]
      invariant |validateIds| == i && forall k :: 0 <= k < i ==> validateIds[k] == cmdId + k
    {
      TakeNext(validates, i);
      commands' := commands' + [ValidateCommand(cmdId + i, ts[i], model, session, loadIds[i])];
      validateIds := validateIds + [cmdId + i];
    }
    TakeAll(validates);
  }

  /** `_build_commands`.  The tiles in use are visited in increasing order, as `sorted(by_tile.keys())` does. */
  method BuildCommands(ts: seq<TensorRecord>, tileCount: nat, strict: bool, model: string, session: string)
    returns (r: Result<seq<Command>>)
    ensures r == BuildPlan(ts, tileCount, strict, model, session)
  {
    var byTile, warnings, errors, placed := ScreenTensors(ts, tileCount, strict);
    if |errors| > 0 {
      return Err("placement report has invalid tensors");
    }
    var commands := EmitTiles(byTile, tileCount, model, session, placed);
    r := Ok(commands);
  }

  method EmitTiles(byTile: map<int, seq<Placed>>, tileCount: nat, model: string, session: string, ghost placed: seq<Placed>)
    returns (commands: seq<Command>)
    requires GroupedByTile(byTile, placed)
    ensures commands == Commands(placed, tileCount, model, session)
  {
    hide Block;
    hide Group;
    hide TileCommand;
    commands := [];
    var cmdId, lastBarrierId := 1, 0;
    for tile := 0 to tileCount
      invariant commands == Blocks(placed, tile, model, session)
      invariant cmdId == |commands| + 1 && lastBarrierId == |commands|
    {
      if tile in byTile {
        var tensors := Sort(byTile[tile], PlacedOrder());
        commands, cmdId := EmitBlock(commands, cmdId, tile, tensors, model, session);
        lastBarrierId := cmdId - 1;
      }
    }
    commands := commands + [TileCommand(cmdId, QueryCounters, 0, model, session, lastBarrierId)];
    cmdId := cmdId + 1;
    commands := commands + [TileCommand(cmdId, TraceSnapshot, 0, model, session, lastBarrierId)];
  }

  // ---------------------------------------------------------------- summary

  /** A tile record of the placement report; None stands for a missing status. */
  datatype ReportTile = ReportTile(capacity: Option<string>, bandwidth: Option<string>)

  datatype Summary = Summary(
    byType: map<CommandType, int>, byTile: map<int, int>, totalBytes: int, f32: int, q8: int, q4: int,
    capacityFailures: int, warnings: int)

  function BytesLoaded(c: Command): int {
    if c.commandType.LoadTensorTile? then c.totalBytes else 0
  }

  function LoadsWith(dtype: string): Command -> int {
    (c: Command) => if c.commandType.LoadTensorTile? && c.dtype == Some(dtype) then 1 else 0
  }

  function CapacityFailed(t: ReportTile): int {
    if t.capacity == Some("FAIL") then 1 else 0
  }

  function BandwidthObserved(t: ReportTile): int {
    if t.bandwidth == Some("WARN") || t.bandwidth == Some("FAIL") then 1 else 0
  }

  function TypeOf(c: Command): CommandType {
    c.commandType
  }

  function TileOf(c: Command): int {
    c.tileId
  }

  ghost predicate SummaryIs(s: Summary, cmds: seq<Command>) {
    && CountsBy(s.byType, cmds, TypeOf) && CountsBy(s.byTile, cmds, TileOf)
    && s.totalBytes == Total(cmds, BytesLoaded) && s.f32 == Total(cmds, LoadsWith("f32"))
    && s.q8 == Total(cmds, LoadsWith("q8")) && s.q4 == Total(cmds, LoadsWith("q4"))
  }

  /** The increments of one command. */
  method CountCommand(s: Summary, ghost before: seq<Command>, c: Command) returns (r: Summary)
    requires SummaryIs(s, before)
    ensures SummaryIs(r, before + [c]) && r.capacityFailures == s.capacityFailures && r.warnings == s.warnings
  {
    CountsSnoc(s.byType, before, c, TypeOf);
    CountsSnoc(s.byTile, before, c, TileOf);
    TotalSnoc(before, c, BytesLoaded);
    TotalSnoc(before, c, LoadsWith("f32"));
    TotalSnoc(before, c, LoadsWith("q8"));
    TotalSnoc(before, c, LoadsWith("q4"));
    hide Total;
    hide CountsBy;
    r := s.(byType := CountUp(s.byType, c.commandType), byTile := CountUp(s.byTile, c.tileId));
    if c.commandType.LoadTensorTile? {
      r := r.(totalBytes := s.totalBytes + c.totalBytes);
      if c.dtype == Some("f32") {
        r := r.(f32 := s.f32 + 1);
      } else if c.dtype == Some("q8") {
        r := r.(q8 := s.q8 + 1);
      } else if c.dtype == Some("q4") {
        r := r.(q4 := s.q4 + 1);
      }
    }
  }

  /** `_build_summary`. */
  method BuildSummary(cmds: seq<Command>, tiles: seq<ReportTile>) returns (s: Summary)
    ensures SummaryIs(s, cmds)
    ensures s.capacityFailures == Total(tiles, CapacityFailed) && s.warnings == Total(tiles, BandwidthObserved)
  {
    s := Summary(map[], map[], 0, 0, 0, 0, 0, 0);
    assert cmds[..0] == [] && tiles[..0] == [];
    assert SummaryIs(s, cmds[..0]);
    for i := 0 to |cmds|
      invariant SummaryIs(s, cmds[..i]) && s.capacityFailures == 0 && s.warnings == 0
    {
      assert cmds[..i + 1] == cmds[..i] + [cmds[i]];
      s := CountCommand(s, cmds[..i], cmds[i]);
    }
    assert cmds[..|cmds|] == cmds;
    var failures, warnings := 0, 0;
    for i := 0 to |tiles|
      invariant failures == Total(tiles[..i], CapacityFailed) && warnings == Total(tiles[..i], BandwidthObserved)
    {
      TotalTake(tiles, CapacityFailed, i);
      TotalTake(tiles, BandwidthObserved, i);
      failures := failures + CapacityFailed(tiles[i]);
      warnings := warnings + BandwidthObserved(tiles[i]);
    }
    assert tiles[..|tiles|] == tiles;
    s := s.(capacityFailures := failures, warnings := warnings);
  }
}
