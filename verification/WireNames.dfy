module WireNames {
  // The strings that plans and route reports carry for operations, phases, commands and packets.

  import opened ExecutionPlan
  import CP = CommandPlan

  function OpName(op: Op): string {
    match op
    case LoadTensor => "LOAD_TENSOR_TILE"
    case ValidateTensor => "VALIDATE_TENSOR"
    case ExecMatmul => "EXEC_MATMUL"
    case ExecRmsnorm => "EXEC_RMSNORM"
    case ExecRope => "EXEC_ROPE"
    case ExecAttention => "EXEC_ATTENTION"
    case ExecSwiglu => "EXEC_SWIGLU"
    case ExecSoftmax => "EXEC_SOFTMAX"
    case ExecResidual => "EXEC_RESIDUAL"
    case KvAppend => "KV_APPEND"
    case KvRead => "KV_READ"
    case FabricSend => "FABRIC_SEND"
    case FabricReduce => "FABRIC_REDUCE"
    case TileBarrier => "TILE_BARRIER"
    case TraceSnapshot => "TRACE_SNAPSHOT"
    case QueryCounters => "QUERY_COUNTERS"
    case Reset => "RESET"
    case OtherOp(name) => name
  }

  function PhaseName(phase: Phase): string {
    match phase
    case DeviceProbe => "DEVICE_PROBE"
    case TileEnumeration => "TILE_ENUMERATION"
    case MemoryAllocate => "MEMORY_ALLOCATE"
    case LoadPhase => "LOAD_TENSOR_TILE"
    case ValidatePhase => "VALIDATE_TENSOR_TILE"
    case PrefillSetup => "PREFILL_SETUP"
    case PrefillExec => "PREFILL_EXECUTION_PLAN"
    case DecodeStep => "DECODE_STEP_PLAN"
    case KvAppendPhase => "KV_APPEND"
    case KvReadPhase => "KV_READ"
    case FabricSendPhase => "FABRIC_SEND"
    case FabricReducePhase => "FABRIC_REDUCE"
    case TracePhase => "TRACE_SNAPSHOT"
    case QueryPhase => "QUERY_COUNTERS"
    case CleanupPhase => "CLEANUP"
    case ResetPhase => "RESET"
    case OtherPhase(name) => name
  }

  function CommandName(t: CP.CommandType): string {
    match t
    case LoadTensorTile => "LOAD_TENSOR_TILE"
    case ValidateTensor => "VALIDATE_TENSOR"
    case TileBarrier => "TILE_BARRIER"
    case QueryCounters => "QUERY_COUNTERS"
    case TraceSnapshot => "TRACE_SNAPSHOT"
    case ResetTile => "RESET_TILE"
    case Nop => "NOP"
    case ExecMatmul => "EXEC_MATMUL"
    case ExecSoftmax => "EXEC_SOFTMAX"
    case ExecRmsnorm => "EXEC_RMSNORM"
    case ExecRope => "EXEC_ROPE"
    case ExecAttention => "EXEC_ATTENTION"
    case ExecFfn => "EXEC_FFN"
    case KvAppend => "KV_APPEND"
    case KvRead => "KV_READ"
    case FabricSend => "FABRIC_SEND"
    case FabricReduce => "FABRIC_REDUCE"
    case UnknownCommand(name) => name
  }
}
