module Att1Reader {
  // The .att1 reader: header, configuration, descriptors and payload slices of an arbitrary file.

  import opened Common
  import opened Bytes
  import opened Records

  const HEADER_SIZE_V1 := 80
  const HEADER_SIZE_V2 := 96
  const CONFIG_SIZE := 36
  const DESC_SIZE := 128
  const NAME_SIZE := 64
  const MAX_DIMS := 4

  function Magic(): seq<Byte> {
    [0x41, 0x54, 0x54, 0x31, 0x4D, 0x4F, 0x44, 0x4C]
  }

  datatype ModelConfig = ModelConfig(
    vocabSize: nat, nLayers: nat, nHeads: nat, dModel: nat, dFf: nat,
    maxSeqLen: nat, ropeDim: nat, nTiles: nat, shardCount: nat)

  datatype ModelTensor = ModelTensor(name: string, dtype: nat, ndims: nat, shape: seq<nat>, raw: seq<Byte>, flags: nat) {
    /** `q4_group_size`: the low byte of flags, 32 when it is zero. */
    function GroupSize(): nat {
      if flags % 256 > 0 then flags % 256 else 32
    }
  }

  datatype Model = Model(version: nat, config: ModelConfig, tensors: seq<ModelTensor>)

  /** `rstrip(b"\0")`. */
  function StripNuls(b: seq<Byte>): seq<Byte> {
    if |b| > 0 && b[|b| - 1] == 0 then StripNuls(b[..|b| - 1]) else b
  }

  /** `decode("ascii", errors="replace")`. */
  function DecodeAscii(b: seq<Byte>): (s: string)
    ensures |s| == |b|
  {
    seq(|b|, i requires 0 <= i < |b| => if b[i] < 128 then b[i] as char else '\U{FFFD}')
  }

  function ReadConfig(data: seq<Byte>, p: nat): ModelConfig
    requires p + CONFIG_SIZE <= |data|
  {
    ModelConfig(ReadU32(data, p), ReadU32(data, p + 4), ReadU32(data, p + 8), ReadU32(data, p + 12), ReadU32(data, p + 16),
                ReadU32(data, p + 20), ReadU32(data, p + 24), ReadU32(data, p + 28), ReadU32(data, p + 32))
  }

  function ReadShape(data: seq<Byte>, dp: nat, ndims: nat): (s: seq<nat>)
    requires dp + DESC_SIZE <= |data| && ndims <= MAX_DIMS
    ensures |s| == ndims
  {
    seq(ndims, j requires 0 <= j < ndims => ReadU64(data, dp + 72 + j * 8))
  }

  /** One descriptor and its payload.  The flags are taken from byte 120 of the descriptor. */
  function ParseTensor(data: seq<Byte>, dp: nat, dataOffset: nat, dataSize: nat): Result<ModelTensor>
    requires dp + DESC_SIZE <= |data| && dataOffset + dataSize <= |data|
  {
    var ndims := ReadU32(data, dp + 68);
    if ndims == 0 || ndims > MAX_DIMS then Err("invalid ndims")
    else
      var offset, nbytes := ReadU64(data, dp + 104), ReadU64(data, dp + 112);
      if offset + nbytes > dataSize then Err("data out of range")
      else
        Ok(ModelTensor(DecodeAscii(StripNuls(Slice(data, dp, NAME_SIZE))), ReadU32(data, dp + 64), ndims,
                       ReadShape(data, dp, ndims), Slice(data, dataOffset + offset, nbytes), ReadU32(data, dp + 120)))
  }

  /** The first n tensors, or the first error. */
  function ParseTensors(data: seq<Byte>, descOffset: nat, dataOffset: nat, dataSize: nat, n: nat): (r: Result<seq<ModelTensor>>)
    requires descOffset + n * DESC_SIZE <= |data| && dataOffset + dataSize <= |data|
    ensures r.Ok? ==> |r.value| == n
  {
    if n == 0 then Ok([])
    else
      match ParseTensors(data, descOffset, dataOffset, dataSize, n - 1)
      case Err(e) => Err(e)
      case Ok(ts) =>
        match ParseTensor(data, descOffset + (n - 1) * DESC_SIZE, dataOffset, dataSize)
        case Err(e) => Err(e)
        case Ok(t) => Ok(ts + [t])
  }

  /** The magic, version and header-size checks. */
  function HeaderError(data: seq<Byte>): Option<string> {
    if |data| < HEADER_SIZE_V1 then Some("file too small for header")
    else if Slice(data, 0, 8) != Magic() then Some("bad magic")
    else if ReadU32(data, 8) == 1 then
      if ReadU32(data, 12) != HEADER_SIZE_V1 then Some("v1 header_size must be 80") else None
    else if ReadU32(data, 8) == 2 then
      if ReadU32(data, 12) != HEADER_SIZE_V2 then Some("v2 header_size must be 96")
      else if |data| < HEADER_SIZE_V2 then Some("file too small for v2 header") else None
    else Some("unsupported version")
  }

  function Parse(data: seq<Byte>): Result<Model> {
    match HeaderError(data)
    case Some(e) => Err(e)
    case None =>
      var configOffset, configSize := ReadU64(data, 16), ReadU64(data, 24);
      var descOffset, tensorCount := ReadU64(data, 32), ReadU64(data, 40);
      var dataOffset, dataSize := ReadU64(data, 48), ReadU64(data, 56);
      if configSize != CONFIG_SIZE then Err("config_size must be 36")
      else if configOffset + configSize > |data| then Err("config section out of range")
      else if descOffset + tensorCount * DESC_SIZE > |data| then Err("tensor descriptor section out of range")
      else if dataOffset + dataSize > |data| then Err("tensor data section out of range")
      else
        match ParseTensors(data, descOffset, dataOffset, dataSize, tensorCount)
        case Err(e) => Err(e)
        case Ok(ts) => Ok(Model(ReadU32(data, 8), ReadConfig(data, configOffset), ts))
  }

  /** `read_att1_model` on the bytes of a file. */
  method ReadAtt1(data: seq<Byte>) returns (r: Result<Model>)
    ensures r == Parse(data)
  {
    hide ParseTensor;
    hide ReadU32;
    hide ReadU64;
    hide ReadConfig;
    var bad := HeaderError(data);
    if bad.Some? {
      return Err(bad.value);
    }
    var configOffset, configSize := ReadU64(data, 16), ReadU64(data, 24);
    var descOffset, tensorCount := ReadU64(data, 32), ReadU64(data, 40);
    var dataOffset, dataSize := ReadU64(data, 48), ReadU64(data, 56);
    if configSize != CONFIG_SIZE {
      return Err("config_size must be 36");
    }
    if configOffset + configSize > |data| {
      return Err("config section out of range");
    }
    var config := ReadConfig(data, configOffset);
    if descOffset + tensorCount * DESC_SIZE > |data| {
      return Err("tensor descriptor section out of range");
    }
    if dataOffset + dataSize > |data| {
      return Err("tensor data section out of range");
    }
    var ts := ReadTensors(data, descOffset, dataOffset, dataSize, tensorCount);
    r := match ts case Err(e) => Err(e) case Ok(tensors) => Ok(Model(ReadU32(data, 8), config, tensors));
  }

  /** The descriptor loop. */
  method ReadTensors(data: seq<Byte>, descOffset: nat, dataOffset: nat, dataSize: nat, count: nat) returns (r: Result<seq<ModelTensor>>)
    requires descOffset + count * DESC_SIZE <= |data| && dataOffset + dataSize <= |data|
    ensures r == ParseTensors(data, descOffset, dataOffset, dataSize, count)
  {
    hide ParseTensor;
    var tensors := [];
    for i := 0 to count
      invariant ParseTensors(data, descOffset, dataOffset, dataSize, i) == Ok(tensors)
    {
      var t := ParseTensor(data, descOffset + i * DESC_SIZE, dataOffset, dataSize);
      if t.Err? {
        FirstErrorStays(data, descOffset, dataOffset, dataSize, i + 1, count);
        return Err(t.error);
      }
      tensors := tensors + [t.value];
    }
    r := Ok(tensors);
  }

  lemma {:induction false} FirstErrorStays(data: seq<Byte>, descOffset: nat, dataOffset: nat, dataSize: nat, i: nat, n: nat)
    requires i <= n && descOffset + n * DESC_SIZE <= |data| && dataOffset + dataSize <= |data|
    requires ParseTensors(data, descOffset, dataOffset, dataSize, i).Err?
    ensures ParseTensors(data, descOffset, dataOffset, dataSize, n) == ParseTensors(data, descOffset, dataOffset, dataSize, i)
  {
    if i < n {
      FirstErrorStays(data, descOffset, dataOffset, dataSize, i, n - 1);
    }
  }
}
