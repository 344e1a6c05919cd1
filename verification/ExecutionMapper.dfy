module ExecutionMapper {
  // From an execution plan to a command plan: header and command checks, then one command per command.

  import opened Common
  import opened Tally
  import opened ExecutionPlan
  import CP = CommandPlan

  datatype ExecPlan = ExecPlan(version: int, modelId: string, sessionId: string, tileCount: int, commands: seq<ExecCommand>)

  /** `_validate_header`. */
  function HeaderProblem(p: ExecPlan): Option<string> {
    if p.version != 1 then Some("unsupported execution_plan_version")
    else if p.modelId == "" then Some("missing or empty 'model_id'")
    else if p.sessionId == "" then Some("missing or empty 'session_id'")
    else if p.tileCount <= 0 then Some("tile_count must be a positive integer")
    else None
  }

  // ----------------------------------------------------------------- checks

  datatype Issue = DuplicateId(at: nat) | BadTile(at: nat) | UnknownPhase(at: nat) | MissingTensor(at: nat)
    | UnknownFence(at: nat) | NoInput(at: nat) | NotExecuted(at: nat)

  function Add(acc: seq<Issue>, bad: bool, issue: Issue): (r: seq<Issue>)
    ensures |r| == |acc| + if bad then 1 else 0
  {
    if bad then acc + [issue] else acc
  }

  predicate IdSeen(cmds: seq<ExecCommand>, i: nat)
    requires i < |cmds|
  {
    IdIn(cmds, i, cmds[i].id)
  }

  predicate IdIn(cmds: seq<ExecCommand>, i: nat, id: int)
    requires i <= |cmds|
  {
    exists j :: 0 <= j < i && cmds[j].id == id
  }

  /** Some earlier command carries this fence. */
  predicate FenceSeen(cmds: seq<ExecCommand>, i: nat, fence: int)
    requires i <= |cmds|
  {
    exists j :: 0 <= j < i && cmds[j].fence == fence
  }

  predicate LacksInput(c: ExecCommand) {
    c.spec.op.FabricSend? && c.spec.inputs == []
  }

  /** The error list after command i has been checked. */
  function CommandErrors(acc: seq<Issue>, cmds: seq<ExecCommand>, i: nat, tileCount: int, strict: bool): seq<Issue>
    requires i < |cmds|
  {
    var c := cmds[i];
    var e1 := Add(acc, IdSeen(cmds, i), DuplicateId(i));
    var e2 := Add(e1, !(0 <= c.tile < tileCount), BadTile(i));
    var e3 := Add(e2, c.spec.phase.OtherPhase?, UnknownPhase(i));
    var e4 := Add(e3, c.spec.op.NeedsTensor() && c.spec.deps == [], MissingTensor(i));
    var e5 := Add(e4, c.dep != 0 && !FenceSeen(cmds, i, c.dep), UnknownFence(i));
    Add(e5, LacksInput(c) && strict, NoInput(i))
  }

  function CheckErrors(cmds: seq<ExecCommand>, tileCount: int, strict: bool, n: nat): seq<Issue>
    requires n <= |cmds|
  {
    if n == 0 then [] else CommandErrors(CheckErrors(cmds, tileCount, strict, n - 1), cmds, n - 1, tileCount, strict)
  }

  function CheckWarnings(cmds: seq<ExecCommand>, strict: bool, n: nat): seq<Issue>
    requires n <= |cmds|
  {
    if n == 0 then [] else Add(CheckWarnings(cmds, strict, n - 1), LacksInput(cmds[n - 1]) && !strict, NoInput(n - 1))
  }

  /** A command the checks have nothing against. */
  ghost predicate CommandOk(cmds: seq<ExecCommand>, i: nat, tileCount: int, strict: bool)
    requires i < |cmds|
  {
    var c := cmds[i];
    && !IdSeen(cmds, i) && 0 <= c.tile < tileCount && !c.spec.phase.OtherPhase?
    && (c.spec.op.NeedsTensor() ==> c.spec.deps != [])
    && (c.dep != 0 ==> FenceSeen(cmds, i, c.dep))
    && !(LacksInput(c) && strict)
  }

  // ---------------------------------------------------------------- mapping

  datatype MappedCommand = MappedCommand(cmd: CP.Command, dep: int, unsupported: bool)

  predicate Advisory(p: Phase) {
    p.DeviceProbe? || p.TileEnumeration? || p.MemoryAllocate? || p.PrefillSetup?
  }

  function AdvisoryType(p: Phase): CP.CommandType {
    if p.TileEnumeration? then CP.QueryCounters else if p.PrefillSetup? then CP.TileBarrier else CP.Nop
  }

  /** The operation's name in the command plan's vocabulary, which has no EXEC_SWIGLU and no EXEC_RESIDUAL. */
  function PlanType(op: Op): CP.CommandType {
    match op
    case LoadTensor => CP.LoadTensorTile
    case ValidateTensor => CP.ValidateTensor
    case ExecMatmul => CP.ExecMatmul
    case ExecRmsnorm => CP.ExecRmsnorm
    case ExecRope => CP.ExecRope
    case ExecAttention => CP.ExecAttention
    case ExecSwiglu => CP.UnknownCommand("EXEC_SWIGLU")
    case ExecSoftmax => CP.ExecSoftmax
    case ExecResidual => CP.UnknownCommand("EXEC_RESIDUAL")
    case KvAppend => CP.KvAppend
    case KvRead => CP.KvRead
    case FabricSend => CP.FabricSend
    case FabricReduce => CP.FabricReduce
    case TileBarrier => CP.TileBarrier
    case TraceSnapshot => CP.TraceSnapshot
    case QueryCounters => CP.QueryCounters
    case Reset => CP.ResetTile
    case OtherOp(name) => CP.UnknownCommand(name)
  }

  function BufferBytes(bs: seq<Buffer>): int {
    if |bs| == 0 then 0 else BufferBytes(bs[..|bs| - 1]) + bs[|bs| - 1].bytes
  }

  /** The dtype of the first buffer that names one. */
  function FirstDtype(bs: seq<Buffer>): Option<string> {
    if |bs| == 0 then None
    else if FirstDtype(bs[..|bs| - 1]).Some? then FirstDtype(bs[..|bs| - 1])
    else if bs[|bs| - 1].dtype != "" then Some(bs[|bs| - 1].dtype) else None
  }

  function QuantizationFor(dtype: Option<string>): Option<string> {
    match dtype
    case None => None
    case Some(d) => Some(if d == "f32" || d == "bf16" then "none" else d)
  }

  /** `_null_cmd` without tensor metadata. */
  function Bare(src: ExecCommand, id: int, kind: CP.CommandType, model: string, session: string): CP.Command {
    CP.Command(id, kind, src.tile, Some(src.tile), session, model, None, None, None, None, None, 0, 0, 0, src.fence, None, "")
  }

  /** With the tensor name, dtype and byte count found in the dependencies and buffers. */
  function Detailed(src: ExecCommand, id: int, kind: CP.CommandType, model: string, session: string): CP.Command {
    var dtype := FirstDtype(src.spec.inputs + src.spec.outputs);
    var bytes := BufferBytes(src.spec.inputs + src.spec.outputs);
    CP.Command(id, kind, src.tile, Some(src.tile), session, model, None, if src.spec.deps == [] then None else Some(src.spec.deps[0]),
               dtype, QuantizationFor(dtype), None, bytes, 0, bytes, src.fence, None, "")
  }

  /** `_map_command`. */
  function MapCommand(src: ExecCommand, id: int, model: string, session: string, strict: bool): Result<MappedCommand> {
    var op, phase := src.spec.op, src.spec.phase;
    if Advisory(phase) then Ok(MappedCommand(Bare(src, id, AdvisoryType(phase), model, session), src.dep, false))
    else if op.Exec() then
      if strict then Err("EXEC command not supported") else Ok(MappedCommand(Detailed(src, id, PlanType(op), model, session), src.dep, true))
    else if op.Reset? || phase.ResetPhase? then Ok(MappedCommand(Bare(src, id, CP.ResetTile, model, session), src.dep, false))
    else if phase.CleanupPhase? && op.QueryCounters? then Ok(MappedCommand(Bare(src, id, CP.QueryCounters, model, session), src.dep, false))
    else if op.OtherOp? then Err("command type not recognised")
    else Ok(MappedCommand(Detailed(src, id, PlanType(op), model, session), src.dep, false))
  }

  function MapTo(cmds: seq<ExecCommand>, model: string, session: string, strict: bool, n: nat): Result<seq<MappedCommand>>
    requires n <= |cmds|
  {
    if n == 0 then Ok([])
    else
      match MapTo(cmds, model, session, strict, n - 1)
      case Err(e) => Err(e)
      case Ok(out) =>
        match MapCommand(cmds[n - 1], n, model, session, strict)
        case Err(e) => Err(e)
        case Ok(c) => Ok(out + [c])
  }

  /** `map_plan` once the ids are settled. */
  function MapPlan(p: ExecPlan, strict: bool): Result<seq<MappedCommand>> {
    match HeaderProblem(p)
    case Some(e) => Err(e)
    case None =>
      if |CheckErrors(p.commands, p.tileCount, strict, |p.commands|)| > 0 then Err("validation errors in execution plan")
      else MapTo(p.commands, p.modelId, p.sessionId, strict, |p.commands|)
  }

  // ------------------------------------------------------------ the program

  /** `_check_command` over the whole list. */
  method CheckCommands(cmds: seq<ExecCommand>, tileCount: int, strict: bool) returns (warnings: seq<Issue>, errors: seq<Issue>)
    ensures errors == CheckErrors(cmds, tileCount, strict, |cmds|) && warnings == CheckWarnings(cmds, strict, |cmds|)
  {
    warnings, errors := [], [];
    var seenIds: set<int> := {};
    var fenceMap: map<int, nat> := map[];
    hide CommandErrors;
    hide Recorded;
    NothingRecorded(cmds);
    for i := 0 to |cmds|
      invariant Recorded(cmds, i, seenIds, fenceMap)
      invariant errors == CheckErrors(cmds, tileCount, strict, i) && warnings == CheckWarnings(cmds, strict, i)
    {
      errors := CheckCommand(cmds, i, tileCount, strict, seenIds, fenceMap, errors);
      warnings := Add(warnings, LacksInput(cmds[i]) && !strict, NoInput(i));
      seenIds, fenceMap := Record(cmds, i, seenIds, fenceMap);
    }
  }

  /** The set and the dictionary hold the ids and the non-zero fences of the first i commands. */
  ghost predicate Recorded(cmds: seq<ExecCommand>, i: nat, seenIds: set<int>, fenceMap: map<int, nat>)
    requires i <= |cmds|
  {
    && (forall id :: id in seenIds <==> IdIn(cmds, i, id))
    && (forall f :: f in fenceMap <==> f != 0 && FenceSeen(cmds, i, f))
  }

  lemma {:induction false} NothingRecorded(cmds: seq<ExecCommand>)
    ensures Recorded(cmds, 0, {}, map[])
  {
  }

  method Record(cmds: seq<ExecCommand>, i: nat, seenIds: set<int>, fenceMap: map<int, nat>)
    returns (seenIds': set<int>, fenceMap': map<int, nat>)
    requires i < |cmds| && Recorded(cmds, i, seenIds, fenceMap)
    ensures Recorded(cmds, i + 1, seenIds', fenceMap')
  {
    FenceSeenNext(cmds, i);
    IdInNext(cmds, i);
    hide FenceSeen;
    hide IdIn;
    seenIds' := seenIds + {cmds[i].id};
    fenceMap' := if cmds[i].fence != 0 then fenceMap[cmds[i].fence := i] else fenceMap;
  }

  lemma {:induction false} FenceSeenNext(cmds: seq<ExecCommand>, i: nat)
    requires i < |cmds|
    ensures forall f :: FenceSeen(cmds, i + 1, f) <==> FenceSeen(cmds, i, f) || cmds[i].fence == f
  {
    forall f
      ensures FenceSeen(cmds, i + 1, f) <==> FenceSeen(cmds, i, f) || cmds[i].fence == f
    {
      if cmds[i].fence == f {
        assert FenceSeen(cmds, i + 1, f);
      }
    }
  }

  lemma {:induction false} IdInNext(cmds: seq<ExecCommand>, i: nat)
    requires i < |cmds|
    ensures forall id :: IdIn(cmds, i + 1, id) <==> IdIn(cmds, i, id) || cmds[i].id == id
  {
    forall id
      ensures IdIn(cmds, i + 1, id) <==> IdIn(cmds, i, id) || cmds[i].id == id
    {
      if cmds[i].id == id {
        assert IdIn(cmds, i + 1, id);
      }
    }
  }

  method CheckCommand(cmds: seq<ExecCommand>, i: nat, tileCount: int, strict: bool, seenIds: set<int>, fenceMap: map<int, nat>, acc: seq<Issue>)
    returns (errors: seq<Issue>)
    requires i < |cmds|
    requires Recorded(cmds, i, seenIds, fenceMap)
    ensures errors == CommandErrors(acc, cmds, i, tileCount, strict)
  {
    var c := cmds[i];
    assert c.id in seenIds <==> IdSeen(cmds, i);
    hide FenceSeen;
    hide IdSeen;
    hide Add;
    errors := Add(acc, c.id in seenIds, DuplicateId(i));
    errors := Add(errors, !(0 <= c.tile < tileCount), BadTile(i));
    errors := Add(errors, c.spec.phase.OtherPhase?, UnknownPhase(i));
    errors := Add(errors, c.spec.op.NeedsTensor() && c.spec.deps == [], MissingTensor(i));
    errors := Add(errors, c.dep != 0 && c.dep !in fenceMap, UnknownFence(i));
    errors := Add(errors, LacksInput(c) && strict, NoInput(i));
  }

  /** An override that is given and not empty replaces the plan's id. */
  function Override(p: ExecPlan, model: Option<string>, session: Option<string>): ExecPlan {
    p.(modelId := if model.GetOr("") != "" then model.value else p.modelId,
       sessionId := if session.GetOr("") != "" then session.value else p.sessionId)
  }

  /** `map_plan`: the header is checked with the plan's own ids. */
  method MapExecutionPlan(given: ExecPlan, model: Option<string>, session: Option<string>, strict: bool)
    returns (r: Result<seq<MappedCommand>>, warned: nat)
    ensures r.Ok? ==> warned == |CheckWarnings(given.commands, strict, |given.commands|)| + Total(r.value, Unsupported)
    ensures r == if HeaderProblem(given).Some? then Err(HeaderProblem(given).value) else MapPlan(Override(given, model, session), strict)
  {
    warned := 0;
    var problem := HeaderProblem(given);
    if problem.Some? {
      return Err(problem.value), warned;
    }
    var p := Override(given, model, session);
    assert HeaderProblem(p).None? && p.commands == given.commands;
    hide Override;
    hide HeaderProblem;
    hide CheckErrors;
    hide CheckWarnings;
    hide MapTo;
    var warnings, errors := CheckCommands(p.commands, p.tileCount, strict);
    if |errors| > 0 {
      return Err("validation errors in execution plan"), warned;
    }
    r, warned := MapAll(p, strict, |warnings|);
  }

  /** The loop over the commands. */
  method MapAll(p: ExecPlan, strict: bool, before: nat) returns (r: Result<seq<MappedCommand>>, warned: nat)
    ensures r == MapTo(p.commands, p.modelId, p.sessionId, strict, |p.commands|)
    ensures r.Ok? ==> warned == before + Total(r.value, Unsupported)
  {
    hide MapCommand;
    hide Total;
    warned := before;
    var out: seq<MappedCommand> := [];
    var cmdId := 1;
    TotalNone(Unsupported);
    for i := 0 to |p.commands|
      invariant cmdId == i + 1 && MapTo(p.commands, p.modelId, p.sessionId, strict, i) == Ok(out)
      invariant warned == before + Total(out, Unsupported)
    {
      var mapped := MapCommand(p.commands[i], cmdId, p.modelId, p.sessionId, strict);
      if mapped.Err? {
        FailureStays(p, strict, i + 1, |p.commands|);
        return Err(mapped.error), warned;
      }
      TotalSnoc(out, mapped.value, Unsupported);
      if mapped.value.unsupported {
        warned := warned + 1;
      }
      out := out + [mapped.value];
      cmdId := cmdId + 1;
    }
    r := Ok(out);
  }

  lemma {:induction false} FailureStays(p: ExecPlan, strict: bool, i: nat, n: nat)
    requires i <= n <= |p.commands| && MapTo(p.commands, p.modelId, p.sessionId, strict, i).Err?
    ensures MapTo(p.commands, p.modelId, p.sessionId, strict, n) == MapTo(p.commands, p.modelId, p.sessionId, strict, i)
  {
    if i < n {
      FailureStays(p, strict, i, n - 1);
    }
  }

  // --------------------------------------------------------------- summary

  datatype MappedSummary = MappedSummary(
    byType: map<CP.CommandType, int>, byTile: map<int, int>, totalBytes: int, f32: int, q8: int, q4: int,
    warned: nat, unsupported: int)

  function KindOf(m: MappedCommand): CP.CommandType {
    m.cmd.commandType
  }

  function TileOf(m: MappedCommand): int {
    m.cmd.tileId
  }

  function BytesOf(m: MappedCommand): int {
    m.cmd.totalBytes
  }

  function WithDtype(dtype: string): MappedCommand -> int {
    (m: MappedCommand) => if m.cmd.dtype == Some(dtype) then 1 else 0
  }

  function Unsupported(m: MappedCommand): int {
    if m.unsupported then 1 else 0
  }

  ghost predicate SummaryIs(s: MappedSummary, out: seq<MappedCommand>) {
    && CountsBy(s.byType, out, KindOf) && CountsBy(s.byTile, out, TileOf) && s.totalBytes == Total(out, BytesOf)
    && s.f32 == Total(out, WithDtype("f32")) && s.q8 == Total(out, WithDtype("q8")) && s.q4 == Total(out, WithDtype("q4"))
    && s.unsupported == Total(out, Unsupported)
  }

  /** The summary `map_plan` attaches to its commands. */
  method Summarize(out: seq<MappedCommand>, warned: nat) returns (s: MappedSummary)
    ensures SummaryIs(s, out) && s.warned == warned
  {
    s := MappedSummary(map[], map[], 0, 0, 0, 0, warned, 0);
    assert out[..0] == [];
    for i := 0 to |out|
      invariant SummaryIs(s, out[..i]) && s.warned == warned
    {
      assert out[..i + 1] == out[..i] + [out[i]];
      s := CountMapped(s, out[..i], out[i]);
    }
    assert out[..|out|] == out;
  }

  /** The increments of one command. */
  method CountMapped(s: MappedSummary, ghost before: seq<MappedCommand>, m: MappedCommand) returns (r: MappedSummary)
    requires SummaryIs(s, before)
    ensures SummaryIs(r, before + [m]) && r.warned == s.warned
  {
    CountsSnoc(s.byType, before, m, KindOf);
    CountsSnoc(s.byTile, before, m, TileOf);
    TotalSnoc(before, m, BytesOf);
    TotalSnoc(before, m, WithDtype("f32"));
    TotalSnoc(before, m, WithDtype("q8"));
    TotalSnoc(before, m, WithDtype("q4"));
    TotalSnoc(before, m, Unsupported);
    hide Total;
    hide CountsBy;
    r := MappedSummary(CountUp(s.byType, m.cmd.commandType), CountUp(s.byTile, m.cmd.tileId), s.totalBytes + m.cmd.totalBytes,
                       s.f32 + WithDtype("f32")(m), s.q8 + WithDtype("q8")(m), s.q4 + WithDtype("q4")(m), s.warned,
                       s.unsupported + if m.unsupported then 1 else 0);
  }

  // ------------------------------------------------------------- acceptance

  lemma {:induction false} CommandErrorsIff(acc: seq<Issue>, cmds: seq<ExecCommand>, i: nat, tileCount: int, strict: bool)
    requires i < |cmds|
    ensures CommandOk(cmds, i, tileCount, strict) ==> CommandErrors(acc, cmds, i, tileCount, strict) == acc
    ensures !CommandOk(cmds, i, tileCount, strict) ==> |CommandErrors(acc, cmds, i, tileCount, strict)| > |acc|
  {
    hide FenceSeen;
    hide IdSeen;
  }

  lemma {:induction false} CheckErrorsIff(cmds: seq<ExecCommand>, tileCount: int, strict: bool, n: nat)
    requires n <= |cmds|
    ensures CheckErrors(cmds, tileCount, strict, n) == [] <==> forall i :: 0 <= i < n ==> CommandOk(cmds, i, tileCount, strict)
  {
    hide CommandErrors;
    hide CommandOk;
    if n > 0 {
      CheckErrorsIff(cmds, tileCount, strict, n - 1);
      CommandErrorsIff(CheckErrors(cmds, tileCount, strict, n - 1), cmds, n - 1, tileCount, strict);
    }
  }

  /** Commands the mapping itself has an answer for. */
  predicate Mappable(c: ExecCommand, strict: bool) {
    Advisory(c.spec.phase) || (if c.spec.op.Exec() then !strict else c.spec.phase.ResetPhase? || !c.spec.op.OtherOp?)
  }

  /** How an output command relates to the command it came from. */
  ghost predicate Corresponds(src: ExecCommand, i: nat, m: MappedCommand) {
    && m.cmd.commandId == i + 1 && m.cmd.tileId == src.tile && m.cmd.fenceId == src.fence && m.dep == src.dep
    && (m.unsupported <==> src.spec.op.Exec() && !Advisory(src.spec.phase))
  }

  ghost predicate AllCorrespond(cmds: seq<ExecCommand>, r: Result<seq<MappedCommand>>) {
    match r
    case Err(_) => false
    case Ok(out) => |out| == |cmds| && forall i :: 0 <= i < |cmds| ==> Corresponds(cmds[i], i, out[i])
  }

  lemma {:induction false} MapCommandIff(src: ExecCommand, i: nat, model: string, session: string, strict: bool)
    ensures MapCommand(src, i + 1, model, session, strict).Ok? <==> Mappable(src, strict)
    ensures Mappable(src, strict) ==> Corresponds(src, i, MapCommand(src, i + 1, model, session, strict).value)
  {
    hide FirstDtype;
    hide BufferBytes;
    hide PlanType;
  }

  lemma {:induction false} MapToIff(cmds: seq<ExecCommand>, model: string, session: string, strict: bool, n: nat)
    requires n <= |cmds|
    ensures (forall i :: 0 <= i < n ==> Mappable(cmds[i], strict)) ==> AllCorrespond(cmds[..n], MapTo(cmds, model, session, strict, n))
    ensures MapTo(cmds, model, session, strict, n).Ok? ==> forall i :: 0 <= i < n ==> Mappable(cmds[i], strict)
  {
    hide MapCommand;
    hide Mappable;
    hide Corresponds;
    if n > 0 {
      MapToIff(cmds, model, session, strict, n - 1);
      MapCommandIff(cmds[n - 1], n - 1, model, session, strict);
    }
  }

  ghost predicate PlanAccepted(p: ExecPlan, strict: bool) {
    && p.version == 1 && p.modelId != "" && p.sessionId != "" && p.tileCount > 0
    && (forall i :: 0 <= i < |p.commands| ==> CommandOk(p.commands, i, p.tileCount, strict))
    && (forall i :: 0 <= i < |p.commands| ==> Mappable(p.commands[i], strict))
  }

  /** The mapper succeeds exactly on the plans that pass its checks, and then maps command for command, in
      order, keeping tile, fence and dependency. */
  lemma {:induction false} MapPlanIff(p: ExecPlan, strict: bool)
    ensures MapPlan(p, strict).Ok? <==> PlanAccepted(p, strict)
    ensures PlanAccepted(p, strict) ==> AllCorrespond(p.commands, MapPlan(p, strict))
  {
    CheckErrorsIff(p.commands, p.tileCount, strict, |p.commands|);
    MapToIff(p.commands, p.modelId, p.sessionId, strict, |p.commands|);
    assert p.commands[..|p.commands|] == p.commands;
    hide CheckErrors;
    hide CommandOk;
    hide MapTo;
    hide Mappable;
    hide Corresponds;
  }
}
