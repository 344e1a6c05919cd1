module MappingMeaning {
  // What the execution-plan mapper turns a command into, by the names both plans carry.

  import opened Common
  import opened Tally
  import opened ExecutionPlan
  import opened ExecutionMapper
  import opened WireNames
  import CP = CommandPlan

  /** Tensor arithmetic, which the simulator does not do. */
  predicate Arithmetic(op: Op) {
    match op
    case ExecMatmul => true
    case ExecRmsnorm => true
    case ExecRope => true
    case ExecAttention => true
    case ExecSwiglu => true
    case ExecSoftmax => true
    case ExecResidual => true
    case _ => false
  }

  predicate Resets(phase: Phase, op: Op) {
    op.Reset? || (phase.ResetPhase? && !Arithmetic(op))
  }

  /** The type of the mapped command. */
  function MappedName(phase: Phase, op: Op): string {
    match phase
    case DeviceProbe => "NOP"
    case TileEnumeration => "QUERY_COUNTERS"
    case MemoryAllocate => "NOP"
    case PrefillSetup => "TILE_BARRIER"
    case _ => if Resets(phase, op) then "RESET_TILE" else OpName(op)
  }

  /** Advisory commands, resets and the counters read at cleanup carry no tensor. */
  predicate WithoutTensor(phase: Phase, op: Op) {
    match phase
    case DeviceProbe => true
    case TileEnumeration => true
    case MemoryAllocate => true
    case PrefillSetup => true
    case CleanupPhase => op.QueryCounters? || op.Reset?
    case _ => Resets(phase, op)
  }

  predicate MarkedUnsupported(phase: Phase, op: Op) {
    match phase
    case DeviceProbe => false
    case TileEnumeration => false
    case MemoryAllocate => false
    case PrefillSetup => false
    case _ => Arithmetic(op)
  }

  predicate TakesTensor(op: Op) {
    match op
    case LoadTensor => true
    case ValidateTensor => true
    case ExecMatmul => true
    case ExecRmsnorm => true
    case _ => false
  }

  predicate Answered(phase: Phase, op: Op, strict: bool) {
    match phase
    case DeviceProbe => true
    case TileEnumeration => true
    case MemoryAllocate => true
    case PrefillSetup => true
    case ResetPhase => !(strict && Arithmetic(op))
    case OtherPhase(_) => false
    case _ => !(strict && Arithmetic(op)) && !op.OtherOp?
  }

  /** A command the mapper takes: new id, a tile of the plan, a known phase and operation, a tensor where one is
      needed, and an earlier command to wait for. */
  ghost predicate Acceptable(cmds: seq<ExecCommand>, i: nat, tileCount: int, strict: bool)
    requires i < |cmds|
  {
    var c := cmds[i];
    && (forall j :: 0 <= j < i ==> cmds[j].id != c.id)
    && 0 <= c.tile < tileCount
    && Answered(c.spec.phase, c.spec.op, strict)
    && (TakesTensor(c.spec.op) ==> |c.spec.deps| > 0)
    && (c.dep == 0 || exists j :: 0 <= j < i && cmds[j].fence == c.dep)
    && (strict && c.spec.op.FabricSend? ==> |c.spec.inputs| > 0)
  }

  lemma {:induction false} AcceptableIs(cmds: seq<ExecCommand>, i: nat, tileCount: int, strict: bool)
    requires i < |cmds|
    ensures Acceptable(cmds, i, tileCount, strict) <==> CommandOk(cmds, i, tileCount, strict) && Mappable(cmds[i], strict)
  {
  }

  /** The plans the mapper takes. */
  lemma {:induction false} AcceptedMeans(p: ExecPlan, strict: bool)
    ensures MapPlan(p, strict).Ok?
       <==> && p.version == 1 && p.modelId != "" && p.sessionId != "" && p.tileCount > 0
            && forall i :: 0 <= i < |p.commands| ==> Acceptable(p.commands, i, p.tileCount, strict)
  {
    hide MapPlan;
    hide CommandOk;
    hide Mappable;
    hide Acceptable;
    MapPlanIff(p, strict);
    forall i | 0 <= i < |p.commands|
      ensures Acceptable(p.commands, i, p.tileCount, strict) <==> CommandOk(p.commands, i, p.tileCount, strict) && Mappable(p.commands[i], strict)
    {
      AcceptableIs(p.commands, i, p.tileCount, strict);
    }
  }

  function ByteSize(): Buffer -> int {
    (b: Buffer) => b.bytes
  }

  /** The dtype of the first buffer that names one. */
  ghost predicate FirstNamed(bs: seq<Buffer>, dtype: Option<string>) {
    match dtype
    case None => forall i :: 0 <= i < |bs| ==> bs[i].dtype == ""
    case Some(d) => d != "" && exists i :: 0 <= i < |bs| && bs[i].dtype == d && forall j :: 0 <= j < i ==> bs[j].dtype == ""
  }

  /** Where a mapped command goes. */
  ghost predicate Addressed(src: ExecCommand, id: int, model: string, session: string, m: MappedCommand) {
    var c := m.cmd;
    && c.commandId == id && c.tileId == src.tile && c.aimuId == Some(src.tile) && c.sessionId == session && c.modelId == model
    && c.tensorId.None? && c.groupSize.None? && c.checksum.None? && c.scaleBytes == 0 && c.fenceId == src.fence && m.dep == src.dep
  }

  /** The tensor data of a mapped command. */
  ghost predicate Carries(src: ExecCommand, c: CP.Command) {
    var bs := src.spec.inputs + src.spec.outputs;
    if WithoutTensor(src.spec.phase, src.spec.op) then
      c.tensorName.None? && c.dtype.None? && c.quantization.None? && c.packedBytes == c.totalBytes == 0
    else
      && c.tensorName == (if |src.spec.deps| == 0 then None else Some(src.spec.deps[0]))
      && FirstNamed(bs, c.dtype)
      && c.quantization == (if c.dtype == Some("f32") || c.dtype == Some("bf16") then Some("none") else c.dtype)
      && c.packedBytes == c.totalBytes == Total(bs, ByteSize())
  }

  ghost predicate Means(src: ExecCommand, id: int, model: string, session: string, m: MappedCommand) {
    && Addressed(src, id, model, session, m)
    && CommandName(m.cmd.commandType) == MappedName(src.spec.phase, src.spec.op)
    && m.unsupported == MarkedUnsupported(src.spec.phase, src.spec.op)
    && Carries(src, m.cmd)
  }

  lemma {:induction false} FirstDtypeNamed(bs: seq<Buffer>)
    ensures FirstNamed(bs, FirstDtype(bs))
  {
    if |bs| > 0 {
      var n := |bs| - 1;
      FirstDtypeNamed(bs[..n]);
      if FirstDtype(bs[..n]).Some? {
        var i :| 0 <= i < n && bs[..n][i].dtype == FirstDtype(bs[..n]).value && forall j :: 0 <= j < i ==> bs[..n][j].dtype == "";
        assert bs[i].dtype == FirstDtype(bs).value && forall j :: 0 <= j < i ==> bs[j].dtype == bs[..n][j].dtype == "";
      } else {
        assert forall j :: 0 <= j < n ==> bs[j].dtype == bs[..n][j].dtype == "";
      }
    }
  }

  lemma {:induction false} BytesAdd(bs: seq<Buffer>)
    ensures BufferBytes(bs) == Total(bs, ByteSize())
  {
    if |bs| > 0 {
      BytesAdd(bs[..|bs| - 1]);
    }
  }

  lemma {:induction false} DetailsMean(src: ExecCommand, id: int, kind: CP.CommandType, model: string, session: string)
    requires !WithoutTensor(src.spec.phase, src.spec.op)
    ensures Carries(src, Detailed(src, id, kind, model, session))
  {
    FirstDtypeNamed(src.spec.inputs + src.spec.outputs);
    BytesAdd(src.spec.inputs + src.spec.outputs);
    hide FirstDtype;
    hide BufferBytes;
    hide FirstNamed;
    hide WithoutTensor;
    hide Total;
  }

  /** A command that is passed on keeps its name. */
  lemma {:induction false} TypeKept(op: Op)
    ensures !op.Reset? ==> CommandName(PlanType(op)) == OpName(op)
    ensures CommandName(CP.ResetTile) == "RESET_TILE" && CommandName(CP.QueryCounters) == OpName(QueryCounters) == "QUERY_COUNTERS"
  {
  }

  lemma {:induction false} AdvisoryMeans(phase: Phase, op: Op)
    requires Advisory(phase)
    ensures CommandName(AdvisoryType(phase)) == MappedName(phase, op)
    ensures WithoutTensor(phase, op) && !MarkedUnsupported(phase, op)
  {
  }

  /** One command. */
  lemma {:induction false} MapCommandMeans(src: ExecCommand, id: int, model: string, session: string, strict: bool)
    requires MapCommand(src, id, model, session, strict).Ok?
    ensures Means(src, id, model, session, MapCommand(src, id, model, session, strict).value)
  {
    var op, phase := src.spec.op, src.spec.phase;
    TypeKept(op);
    if Advisory(phase) {
      AdvisoryMeans(phase, op);
    }
    if !WithoutTensor(phase, op) {
      DetailsMean(src, id, PlanType(op), model, session);
    }
    hide PlanType;
    hide AdvisoryType;
    hide CommandName;
    hide OpName;
    hide FirstDtype;
    hide BufferBytes;
    hide FirstNamed;
    hide Total;
  }

  lemma {:induction false} MapToMeans(cmds: seq<ExecCommand>, model: string, session: string, strict: bool, n: nat)
    requires n <= |cmds| && MapTo(cmds, model, session, strict, n).Ok?
    ensures |MapTo(cmds, model, session, strict, n).value| == n
    ensures forall i :: 0 <= i < n ==> Means(cmds[i], i + 1, model, session, MapTo(cmds, model, session, strict, n).value[i])
  {
    hide MapCommand;
    hide Means;
    if n > 0 {
      MapToMeans(cmds, model, session, strict, n - 1);
      MapCommandMeans(cmds[n - 1], n, model, session, strict);
    }
  }

  /** Every command of an accepted plan, in order: its name, its address and its data. */
  lemma {:induction false} MappedPlanMeans(p: ExecPlan, strict: bool)
    requires MapPlan(p, strict).Ok?
    ensures var out := MapPlan(p, strict).value;
            |out| == |p.commands| && forall i :: 0 <= i < |out| ==> Means(p.commands[i], i + 1, p.modelId, p.sessionId, out[i])
  {
    MapToMeans(p.commands, p.modelId, p.sessionId, strict, |p.commands|);
    hide MapTo;
    hide Means;
    hide CheckErrors;
  }
}
