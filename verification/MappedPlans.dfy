module MappedPlans {
  // A generated plan after mapping: where each tensor's load and validation end up, and that there is one of each.

  import opened Common
  import opened Tally
  import opened ExecutionPlan
  import opened ExecutionMapper
  import opened MappingMeaning
  import opened PlanLayout
  import opened PlannerInvariant
  import opened WireNames
  import PA = PlannerAcceptance

  /** A mapped command for one tensor, on its owner. */
  ghost predicate ForTensor(m: MappedCommand, name: string, t: PlanTensor, position: int, model: string, session: string) {
    var c := m.cmd;
    && CommandName(c.commandType) == name && !m.unsupported
    && c.commandId == position + 1 && c.fenceId == position + 1 && m.dep == 0
    && c.tensorName == Some(t.name) && c.tileId == t.owner.GetOr(0) && c.aimuId == Some(c.tileId)
    && c.totalBytes == c.packedBytes == t.packedBytes && c.dtype == (if t.dtype == "" then None else Some(t.dtype))
    && c.modelId == model && c.sessionId == session
  }

  lemma {:induction false} OneBuffer(b: Buffer, dtype: Option<string>)
    requires FirstNamed([b], dtype)
    ensures dtype == (if b.dtype == "" then None else Some(b.dtype)) && Total([b], ByteSize()) == b.bytes
  {
    assert [b][0] == b && [b][..0] == [];
    assert Total([b], ByteSize()) == Total([b][..0], ByteSize()) + ByteSize()(b);
  }

  lemma {:induction false} LoadMeans(t: PlanTensor, position: nat, model: string, session: string, m: MappedCommand)
    requires Means(LoadOf(t, position), position + 1, model, session, m)
    ensures ForTensor(m, "LOAD_TENSOR_TILE", t, position, model, session)
  {
    var c := LoadOf(t, position);
    assert c.spec.inputs + c.spec.outputs == [Buffer("TENSOR", t.packedBytes, t.dtype)];
    OneBuffer(Buffer("TENSOR", t.packedBytes, t.dtype), m.cmd.dtype);
    hide FirstNamed;
    hide Total;
    hide CommandName;
  }

  lemma {:induction false} ValidateMeans(t: PlanTensor, position: nat, model: string, session: string, m: MappedCommand)
    requires Means(ValidateOf(t, position), position + 1, model, session, m)
    ensures ForTensor(m, "VALIDATE_TENSOR", t, position, model, session)
  {
    var c := ValidateOf(t, position);
    assert c.spec.inputs + c.spec.outputs == [Buffer("TENSOR", t.packedBytes, t.dtype)];
    OneBuffer(Buffer("TENSOR", t.packedBytes, t.dtype), m.cmd.dtype);
    hide FirstNamed;
    hide Total;
    hide CommandName;
  }

  /** Every tensor is mapped to a load and, behind it, a validation, with its name on its owner. */
  lemma {:induction false} TensorsMapped(p: PlanInput, model: string, session: string, i: nat)
    requires MapPlan(PA.PlanOf(p, model, session), false).Ok? && i < |p.tensors|
    ensures var out, a, b := MapPlan(PA.PlanOf(p, model, session), false).value, LoadPosition(p.tensors, i), ValidatePosition(p.tensors, i);
            && 0 <= a < b < |out|
            && ForTensor(out[a], "LOAD_TENSOR_TILE", p.tensors[i], a, model, session)
            && ForTensor(out[b], "VALIDATE_TENSOR", p.tensors[i], b, model, session)
  {
    var plan := PA.PlanOf(p, model, session);
    assert plan.commands == Planned(p).cmds && plan.modelId == model && plan.sessionId == session;
    hide *;
    var out, a, b := MapPlan(plan, false).value, LoadPosition(p.tensors, i), ValidatePosition(p.tensors, i);
    MappedPlanMeans(plan, false);
    TensorCommands(p, i);
    assert Means(plan.commands[a], a + 1, model, session, out[a]);
    LoadMeans(p.tensors[i], a, model, session, out[a]);
    assert Means(plan.commands[b], b + 1, model, session, out[b]);
    ValidateMeans(p.tensors[i], b, model, session, out[b]);
  }

  lemma {:induction false} NameTellsOp(c: ExecCommand, name: string)
    requires !c.spec.op.OtherOp? && (name == "LOAD_TENSOR_TILE" || name == "VALIDATE_TENSOR") && MappedName(c.spec.phase, c.spec.op) == name
    ensures name == "LOAD_TENSOR_TILE" ==> c.spec.op.LoadTensor?
    ensures name == "VALIDATE_TENSOR" ==> c.spec.op.ValidateTensor?
  {
    assert name == OpName(c.spec.op);
  }

  lemma {:induction false} KnownOp(p: PlanInput, j: nat)
    requires j < |Planned(p).cmds|
    ensures !Planned(p).cmds[j].spec.op.OtherOp?
  {
    PlannedGood(p);
    hide Planned;
    assert InPlace(Planned(p).cmds, j);
  }

  /** And nothing else is a load or a validation. */
  lemma {:induction false} OnlyTensorsMapped(p: PlanInput, model: string, session: string, j: nat) returns (i: nat)
    requires MapPlan(PA.PlanOf(p, model, session), false).Ok? && j < |MapPlan(PA.PlanOf(p, model, session), false).value|
    ensures var name := CommandName(MapPlan(PA.PlanOf(p, model, session), false).value[j].cmd.commandType);
            && (name == "LOAD_TENSOR_TILE" ==> i < |p.tensors| && j == LoadPosition(p.tensors, i))
            && (name == "VALIDATE_TENSOR" ==> i < |p.tensors| && j == ValidatePosition(p.tensors, i))
  {
    var plan := PA.PlanOf(p, model, session);
    assert plan.commands == Planned(p).cmds;
    hide *;
    var out := MapPlan(plan, false).value;
    MappedPlanMeans(plan, false);
    var c, name := plan.commands[j], CommandName(out[j].cmd.commandType);
    KnownOp(p, j);
    MeansNamed(c, j + 1, plan.modelId, plan.sessionId, out[j]);
    i := 0;
    if name == "LOAD_TENSOR_TILE" || name == "VALIDATE_TENSOR" {
      NameTellsOp(c, name);
      if j >= 2 * |p.tensors| {
        RestIsNoTensor(p, j);
        assert false;
      } else {
        i := EveryPosition(p.tensors, j);
        TensorCommands(p, i);
        OpsOf(p.tensors[i], j);
      }
    }
  }

  lemma {:induction false} MeansNamed(src: ExecCommand, id: int, model: string, session: string, m: MappedCommand)
    requires Means(src, id, model, session, m)
    ensures CommandName(m.cmd.commandType) == MappedName(src.spec.phase, src.spec.op)
  {
    hide CommandName;
    hide MappedName;
    hide Carries;
  }

  lemma {:induction false} OpsOf(t: PlanTensor, position: nat)
    ensures LoadOf(t, position).spec.op == LoadTensor && ValidateOf(t, position).spec.op == ValidateTensor
  {
  }
}
