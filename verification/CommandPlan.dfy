module CommandPlan {
  // AIMU command plans and the two consumers' acceptance checks.

  import opened Common

  datatype CommandType =
    | LoadTensorTile | ValidateTensor | TileBarrier | QueryCounters | TraceSnapshot | ResetTile | Nop
    | ExecMatmul | ExecSoftmax | ExecRmsnorm | ExecRope | ExecAttention | ExecFfn
    | KvAppend | KvRead | FabricSend | FabricReduce
    | UnknownCommand(name: string)

  datatype Command = Command(
    commandId: int, commandType: CommandType, tileId: int, aimuId: Option<int>, sessionId: string, modelId: string,
    tensorId: Option<int>, tensorName: Option<string>, dtype: Option<string>, quantization: Option<string>,
    groupSize: Option<int>, packedBytes: int, scaleBytes: int, totalBytes: int,
    fenceId: int, checksum: Option<string>, notes: string)

  datatype PlanHeader = PlanHeader(tileCount: int, tensorCount: int, commandCount: int, modelId: string, sessionId: string, status: string)

  datatype Plan = Plan(version: int, header: PlanHeader, commands: seq<Command>)

  const PLAN_VERSION := 1

  predicate SupportedDtype(d: string) {
    d == "f32" || d == "q8" || d == "q4"
  }

  predicate SupportedGroupSize(g: int) {
    g == 32 || g == 64
  }

  // ------------------------------------------- the replay tool's plan check

  /** The id the next command has to exceed. */
  function PreviousId(cmds: seq<Command>, n: nat): int
    requires n <= |cmds|
  {
    if n == 0 then 0 else cmds[n - 1].commandId
  }

  datatype Complaint = UnknownType(at: nat) | BadDtype(at: nat) | BadGroupSize(at: nat)

  /** A complaint is fatal in strict mode and a warning otherwise. */
  function Complaints(at: nat, c: Command): seq<Complaint> {
    (if c.commandType.UnknownCommand? then [UnknownType(at)] else [])
    + (if c.dtype.Some? && !SupportedDtype(c.dtype.value) then [BadDtype(at)] else [])
    + (if c.dtype == Some("q4") && c.groupSize.Some? && !SupportedGroupSize(c.groupSize.value) then [BadGroupSize(at)] else [])
  }

  /** What the loop requires of one command whatever the mode. */
  predicate WellPlaced(c: Command, previous: int, tileCount: int) {
    0 <= c.tileId < tileCount && c.commandId > 0 && c.commandId > previous && c.fenceId >= 0
  }

  function CheckCommands(cmds: seq<Command>, tileCount: int, strict: bool, n: nat): Result<seq<Complaint>>
    requires n <= |cmds|
  {
    if n == 0 then Ok([])
    else
      match CheckCommands(cmds, tileCount, strict, n - 1)
      case Err(e) => Err(e)
      case Ok(ws) =>
        var found := Complaints(n - 1, cmds[n - 1]);
        if !WellPlaced(cmds[n - 1], PreviousId(cmds, n - 1), tileCount) || (strict && |found| > 0) then Err("command rejected")
        else Ok(ws + found)
  }

  /** `_validate_plan` of replay_aimu_command_plan.py: warnings, or the reason for ValidationError. */
  function CheckPlan(p: Plan, strict: bool): Result<seq<Complaint>> {
    if p.version != PLAN_VERSION then Err("unsupported command_plan_version")
    else if p.header.tileCount <= 0 then Err("header.tile_count must be a positive integer")
    else if strict && p.header.status != "pass" then Err("strict mode: header status is not 'pass'")
    else if |p.commands| == 0 then Err("'commands' array is empty")
    else CheckCommands(p.commands, p.header.tileCount, strict, |p.commands|)
  }

  method ValidatePlan(p: Plan, strict: bool) returns (r: Result<seq<Complaint>>)
    ensures r == CheckPlan(p, strict)
  {
    if p.version != PLAN_VERSION {
      return Err("unsupported command_plan_version");
    }
    if p.header.tileCount <= 0 {
      return Err("header.tile_count must be a positive integer");
    }
    if strict && p.header.status != "pass" {
      return Err("strict mode: header status is not 'pass'");
    }
    if |p.commands| == 0 {
      return Err("'commands' array is empty");
    }
    r := CheckLoop(p.commands, p.header.tileCount, strict);
  }

  method CheckLoop(cmds: seq<Command>, tileCount: int, strict: bool) returns (r: Result<seq<Complaint>>)
    ensures r == CheckCommands(cmds, tileCount, strict, |cmds|)
  {
    var warnings: seq<Complaint> := [];
    var previous := 0;
    for i := 0 to |cmds|
      invariant previous == PreviousId(cmds, i)
      invariant CheckCommands(cmds, tileCount, strict, i) == Ok(warnings)
    {
      var found := Complaints(i, cmds[i]);
      if !WellPlaced(cmds[i], previous, tileCount) || (strict && |found| > 0) {
        RejectionStays(cmds, tileCount, strict, i + 1, |cmds|);
        return Err("command rejected");
      }
      warnings := warnings + found;
      previous := cmds[i].commandId;
    }
    r := Ok(warnings);
  }

  lemma {:induction false} RejectionStays(cmds: seq<Command>, tileCount: int, strict: bool, i: nat, n: nat)
    requires i <= n <= |cmds| && CheckCommands(cmds, tileCount, strict, i).Err?
    ensures CheckCommands(cmds, tileCount, strict, n) == CheckCommands(cmds, tileCount, strict, i)
  {
    if i < n {
      RejectionStays(cmds, tileCount, strict, i, n - 1);
    }
  }

  // ------------------------------------------- the route mapper's plan check

  datatype PlanWarning = DuplicateId(at: nat) | NoRouteForType(at: nat)

  /** Warnings about command i; it refuses the plan when the tile is out of range. */
  function MapperWarnings(cmds: seq<Command>, i: nat): seq<PlanWarning>
    requires i < |cmds|
  {
    (if exists j :: 0 <= j < i && cmds[j].commandId == cmds[i].commandId then [DuplicateId(i)] else [])
    + (if cmds[i].commandType.UnknownCommand? then [NoRouteForType(i)] else [])
  }

  function MapperCheckCommands(cmds: seq<Command>, tileCount: int, n: nat): Result<seq<PlanWarning>>
    requires n <= |cmds|
  {
    if n == 0 then Ok([])
    else
      match MapperCheckCommands(cmds, tileCount, n - 1)
      case Err(e) => Err(e)
      case Ok(ws) =>
        if !(0 <= cmds[n - 1].tileId < tileCount) then Err("tile_id out of range")
        else Ok(ws + MapperWarnings(cmds, n - 1))
  }

  /** `_validate_plan` of map_commands_to_fabric_routes.py. */
  function MapperCheck(p: Plan, strict: bool): Result<seq<PlanWarning>> {
    if p.version != PLAN_VERSION then Err("command_plan_version is not supported")
    else if p.header.tileCount <= 0 then Err("tile_count must be a positive integer")
    else if strict && p.header.status != "ok" then Err("--strict: header.status is not 'ok'")
    else MapperCheckCommands(p.commands, p.header.tileCount, |p.commands|)
  }

  method MapperValidatePlan(p: Plan, strict: bool) returns (r: Result<seq<PlanWarning>>)
    ensures r == MapperCheck(p, strict)
  {
    if p.version != PLAN_VERSION {
      return Err("command_plan_version is not supported");
    }
    if p.header.tileCount <= 0 {
      return Err("tile_count must be a positive integer");
    }
    if strict && p.header.status != "ok" {
      return Err("--strict: header.status is not 'ok'");
    }
    var warnings: seq<PlanWarning> := [];
    var seenIds: set<int> := {};
    var cmds := p.commands;
    for i := 0 to |cmds|
      invariant forall id :: id in seenIds <==> exists j :: 0 <= j < i && cmds[j].commandId == id
      invariant MapperCheckCommands(cmds, p.header.tileCount, i) == Ok(warnings)
    {
      var c := cmds[i];
      ghost var before := warnings;
      if c.commandId in seenIds {
        warnings := warnings + [DuplicateId(i)];
      } else {
        seenIds := seenIds + {c.commandId};
      }
      if c.commandType.UnknownCommand? {
        warnings := warnings + [NoRouteForType(i)];
      }
      assert warnings == before + MapperWarnings(cmds, i);
      if !(0 <= c.tileId < p.header.tileCount) {
        MapperRejectionStays(cmds, p.header.tileCount, i + 1, |cmds|);
        return Err("tile_id out of range");
      }
    }
    r := Ok(warnings);
  }

  lemma {:induction false} MapperRejectionStays(cmds: seq<Command>, tileCount: int, i: nat, n: nat)
    requires i <= n <= |cmds| && MapperCheckCommands(cmds, tileCount, i).Err?
    ensures MapperCheckCommands(cmds, tileCount, n) == MapperCheckCommands(cmds, tileCount, i)
  {
    if i < n {
      MapperRejectionStays(cmds, tileCount, i, n - 1);
    }
  }

  /** The mapper accepts exactly the plans whose commands all sit on tiles of the plan. */
  lemma {:induction false} MapperAccepts(cmds: seq<Command>, tileCount: int, n: nat)
    requires n <= |cmds|
    ensures MapperCheckCommands(cmds, tileCount, n).Ok? <==> forall i :: 0 <= i < n ==> 0 <= cmds[i].tileId < tileCount
  {
    if n > 0 {
      MapperAccepts(cmds, tileCount, n - 1);
    }
  }
}
