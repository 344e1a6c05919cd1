module Att1Writer {
  // The .att1 writer: consistency checks, descriptors, data, and the optional shard metadata.

  import opened Common
  import opened Bytes
  import opened Records
  import opened Decimal
  import opened TensorPlan
  import Schedule

  const HEADER_SIZE := 80
  const CONFIG_SIZE := 36
  const DESC_SIZE := 128
  const NAME_SIZE := 64
  const SHARD_RECORD_SIZE := 120

  function Magic(): seq<Byte> {
    [0x41, 0x54, 0x54, 0x31, 0x4D, 0x4F, 0x44, 0x4C]
  }

  // ---------------------------------------------------------------- records

  function HeaderFields(tensorCount: int, dataSize: int, shardOffset: int, shardSize: int): seq<Field> {
    var descOffset := HEADER_SIZE + CONFIG_SIZE;
    [Raw(Magic()), U32(1), U32(HEADER_SIZE),
     U64(HEADER_SIZE), U64(CONFIG_SIZE), U64(descOffset), U64(tensorCount),
     U64(descOffset + tensorCount * DESC_SIZE), U64(dataSize), U64(shardOffset), U64(shardSize)]
  }

  function ConfigFields(c: Config): seq<Field> {
    [U32(c.vocabSize), U32(c.nLayers), U32(c.nHeads), U32(c.dModel), U32(c.dFf),
     U32(c.maxSeqLen), U32(c.ropeDim), U32(c.nTiles), U32(c.shardCount)]
  }

  predicate Ascii(s: string) {
    forall i :: 0 <= i < |s| ==> s[i] < 128 as char
  }

  /** A name the descriptor can hold: ASCII and shorter than the name field. */
  predicate NameFits(name: string) {
    Ascii(name) && |name| < NAME_SIZE
  }

  function NameField(name: string): (b: seq<Byte>)
    requires NameFits(name)
    ensures |b| == NAME_SIZE
  {
    seq(|name|, i requires 0 <= i < |name| => name[i] as int) + seq(NAME_SIZE - |name|, _ => 0)
  }

  /** The shape padded with ones to four dimensions; further dimensions are not written. */
  function Padded(shape: Shape): (s: seq<int>)
    ensures |s| == 4
  {
    (shape + [1, 1, 1, 1])[..4]
  }

  function DescriptorFields(t: Tensor, offset: int): seq<Field>
    requires NameFits(t.name)
  {
    var s := Padded(t.shape);
    [Raw(NameField(t.name)), U32(t.dtype), U32(|t.shape|),
     U64(s[0]), U64(s[1]), U64(s[2]), U64(s[3]), U64(offset), U64(|t.data|), U32(0), U32(t.flags)]
  }

  function ShardFields(i: int, t: Tensor, tile: int, offset: int): seq<Field> {
    var s := Padded(t.shape);
    [U32(i), U32(tile), U64(offset), U64(s[0]), U64(s[1]), U64(s[2]), U64(s[3]),
     U32(t.dtype), U32(if t.dtype == DTYPE_Q8 || t.dtype == DTYPE_Q4 then 1 else 0), U32(tile), U32(0),
     U32(0), U32(0), U32(0), U32(0), U32(0), U32(0), U32(0), U32(0),
     U32(0), U32(0), U32(0), U32(0), U64(0)]
  }

  // ------------------------------------------------------------ tile lookup

  /** N in a name "layers.N.*". */
  function LayerOf(name: string): Option<nat> {
    if "layers." <= name then
      var rest := name[7..];
      var dot := FindDot(rest);
      if dot > 0 then ParseInt(rest[..dot]) else None
    else None
  }

  /** Outside of this the lookup is an IndexError: the schedule does not reach the layer. */
  predicate TileKnown(name: string, nLayers: int, assignment: seq<nat>) {
    match LayerOf(name)
    case Some(layer) => layer < nLayers ==> layer < |assignment|
    case None => true
  }

  /** The tile recorded for a tensor: "layers.N.*" names follow the schedule, all others sit on tile 0. */
  function TileFor(name: string, nLayers: int, assignment: seq<nat>): nat
    requires TileKnown(name, nLayers, assignment)
  {
    match LayerOf(name)
    case Some(layer) => if layer < nLayers then assignment[layer] else 0
    case None => 0
  }

  lemma {:induction false} TileOfLayerName(layer: nat, suffix: string, nLayers: int, assignment: seq<nat>)
    requires layer < nLayers && |suffix| > 0 && suffix[0] == '.'
    ensures TileKnown(LayerName(layer, suffix), nLayers, assignment) <==> layer < |assignment|
    ensures layer < |assignment| ==> TileFor(LayerName(layer, suffix), nLayers, assignment) == assignment[layer]
  {
    LayerOfName(layer, suffix);
    hide LayerOf;
    hide LayerName;
  }

  /** The layer number a name was printed with is found again. */
  lemma {:induction false} LayerOfName(layer: nat, suffix: string)
    requires |suffix| > 0 && suffix[0] == '.'
    ensures LayerOf(LayerName(layer, suffix)) == Some(layer)
  {
    var name := LayerName(layer, suffix);
    var rest := name[7..];
    assert rest == Digits(layer) + suffix;
    var dot := FindDot(rest);
    assert rest[|Digits(layer)|] == '.';
    if dot < |Digits(layer)| {
      assert false;
    }
    assert rest[..dot] == Digits(layer);
    ParseInvertsDigits(layer);
  }

  // ----------------------------------------------------- consistency checks

  /** The per-tensor check of the builder; any dtype other than q8 and q4 is sized as f32. */
  predicate Matches(e: PlanEntry, t: Tensor) {
    if t.dtype == DTYPE_Q8 then
      && Q8Eligible(e.name, e.shape) && t.name == e.name && t.shape == [e.shape[1], e.shape[0]]
      && |t.data| == t.shape[0] * t.shape[1] + t.shape[0] * 4
    else if t.dtype == DTYPE_Q4 then
      && Q4Eligible(e.name, e.shape) && t.name == e.name && t.shape == [e.shape[1], e.shape[0]]
      && |t.data| == t.shape[0] * t.shape[1] / 2 + t.shape[0] * (t.shape[1] / EffectiveGroup(t.flags)) * 4
    else
      t.name == e.name && t.shape == e.shape && |t.data| == Product(t.shape) * 4
  }

  /** `flags & 0xFF`, or the default when that is zero. */
  function EffectiveGroup(flags: int): (g: int)
    ensures g > 0
  {
    if flags % 256 == 0 then Q4_GROUP_SIZE else flags % 256
  }

  predicate AllMatch(plan: seq<PlanEntry>, ts: seq<Tensor>)
    requires |plan| == |ts|
  {
    forall i :: 0 <= i < |ts| ==> Matches(plan[i], ts[i])
  }

  // ---------------------------------------------------------------- sections

  /** Byte offset of tensor i in the data section: the sizes of the tensors before it. */
  function DataOffset(ts: seq<Tensor>, i: nat): nat
    requires i <= |ts|
  {
    if i == 0 then 0 else DataOffset(ts, i - 1) + |ts[i - 1].data|
  }

  predicate DescriptorFits(ts: seq<Tensor>, i: nat)
    requires i < |ts|
  {
    NameFits(ts[i].name) && AllFit(DescriptorFields(ts[i], DataOffset(ts, i)))
  }

  predicate NamesFit(ts: seq<Tensor>) {
    forall i :: 0 <= i < |ts| ==> NameFits(ts[i].name)
  }

  predicate DescriptorsFit(ts: seq<Tensor>) {
    forall i :: 0 <= i < |ts| ==> DescriptorFits(ts, i)
  }

  function Descriptor(ts: seq<Tensor>, i: nat): (b: seq<Byte>)
    requires i < |ts| && DescriptorFits(ts, i)
    ensures |b| == DESC_SIZE
  {
    DescriptorOffsets(ts[i], DataOffset(ts, i));
    Pack(DescriptorFields(ts[i], DataOffset(ts, i)))
  }

  lemma {:induction false} DescriptorOffsets(t: Tensor, offset: int)
    requires NameFits(t.name)
    ensures var f := DescriptorFields(t, offset);
            && Offset(f, 0) == 0 && Offset(f, 1) == 64 && Offset(f, 2) == 68 && Offset(f, 3) == 72 && Offset(f, 4) == 80
            && Offset(f, 5) == 88 && Offset(f, 6) == 96 && Offset(f, 7) == 104 && Offset(f, 8) == 112 && Offset(f, 9) == 120
            && Offset(f, 10) == 124 && Offset(f, |f|) == DESC_SIZE
  {
    var f := DescriptorFields(t, offset);
    assert Offset(f, 2) == Offset(f, 1) + 4 == 68;
    assert Offset(f, 4) == Offset(f, 3) + 8 == Offset(f, 2) + 12;
    assert Offset(f, 6) == Offset(f, 5) + 8 == Offset(f, 4) + 16;
    assert Offset(f, 8) == Offset(f, 7) + 8 == Offset(f, 6) + 16;
    assert Offset(f, 10) == Offset(f, 9) + 4 == Offset(f, 8) + 12;
  }

  function Descriptors(ts: seq<Tensor>, n: nat): (b: seq<Byte>)
    requires n <= |ts| && DescriptorsFit(ts)
    ensures |b| == n * DESC_SIZE
  {
    if n == 0 then [] else Descriptors(ts, n - 1) + Descriptor(ts, n - 1)
  }

  /** The whole descriptor section. */
  function DescriptorSection(ts: seq<Tensor>): seq<Byte>
    requires DescriptorsFit(ts)
  {
    Descriptors(ts, |ts|)
  }

  function Data(ts: seq<Tensor>, n: nat): (b: seq<Byte>)
    requires n <= |ts|
    ensures |b| == DataOffset(ts, n)
  {
    if n == 0 then [] else Data(ts, n - 1) + ts[n - 1].data
  }

  /** The whole data section. */
  function DataSection(ts: seq<Tensor>): seq<Byte> {
    Data(ts, |ts|)
  }

  /** The tile schedule the metadata is built from. */
  function TileSchedule(c: Config): (a: seq<nat>)
    ensures c.nTiles >= 1 ==> |a| == LayerCount(c)
    ensures c.nTiles < 1 ==> a == []
  {
    if c.nTiles >= 1 then
      Schedule.ScheduleIsBalanced(LayerCount(c), c.nTiles);
      Schedule.Assignment(LayerCount(c), c.nTiles)
    else
      Schedule.NoTilesNoSchedule(LayerCount(c));
      Schedule.Assignment(LayerCount(c), 0)
  }

  predicate TileFound(c: Config, t: Tensor) {
    TileKnown(t.name, c.nLayers, TileSchedule(c))
  }

  function ShardRecordFields(c: Config, ts: seq<Tensor>, i: nat): seq<Field>
    requires i < |ts| && TileFound(c, ts[i])
  {
    ShardFields(i, ts[i], TileFor(ts[i].name, c.nLayers, TileSchedule(c)), DataOffset(ts, i))
  }

  predicate ShardFits(c: Config, ts: seq<Tensor>, i: nat)
    requires i < |ts|
  {
    TileFound(c, ts[i]) && AllFit(ShardRecordFields(c, ts, i))
  }

  predicate ShardsFit(c: Config, ts: seq<Tensor>)
  {
    forall i :: 0 <= i < |ts| ==> ShardFits(c, ts, i)
  }

  lemma {:induction false} ShardWidths(i: int, t: Tensor, tile: int, offset: int)
    ensures var f := ShardFields(i, t, tile, offset);
            && |f| == 24 && Offset(f, 0) == 0
            && forall k :: 0 <= k < 24 ==> f[k].Width() == if 2 <= k <= 6 || k == 23 then 8 else 4
  {
  }

  lemma {:induction false} ShardOffsets(i: int, t: Tensor, tile: int, offset: int)
    ensures var f := ShardFields(i, t, tile, offset);
            && Offset(f, 0) == 0 && Offset(f, 1) == 4 && Offset(f, 2) == 8 && Offset(f, 7) == 48 && Offset(f, 9) == 56
            && Offset(f, |f|) == SHARD_RECORD_SIZE
  {
    hide Offset;
    hide ShardFields;
    var f := ShardFields(i, t, tile, offset);
    ShardWidths(i, t, tile, offset);
    OffsetRun(f, 0, 1, 4);
    OffsetRun(f, 1, 1, 4);
    OffsetRun(f, 2, 5, 8);
    OffsetRun(f, 7, 2, 4);
    OffsetRun(f, 9, 14, 4);
    OffsetRun(f, 23, 1, 8);
  }

  function ShardRecord(c: Config, ts: seq<Tensor>, i: nat): (b: seq<Byte>)
    requires i < |ts| && ShardFits(c, ts, i)
    ensures |b| == SHARD_RECORD_SIZE
  {
    ShardOffsets(i, ts[i], TileFor(ts[i].name, c.nLayers, TileSchedule(c)), DataOffset(ts, i));
    Pack(ShardRecordFields(c, ts, i))
  }

  function Shards(c: Config, ts: seq<Tensor>, n: nat): (b: seq<Byte>)
    requires n <= |ts| && ShardsFit(c, ts)
    ensures |b| == n * SHARD_RECORD_SIZE
  {
    if n == 0 then [] else Shards(c, ts, n - 1) + ShardRecord(c, ts, n - 1)
  }

  /** How the metadata loop ends: NoTile stands for IndexError, Misfit for struct.error. */
  datatype ShardStatus = Complete | NoTile | Misfit

  /** After n records; the first failure decides. */
  function ShardOutcome(c: Config, ts: seq<Tensor>, n: nat): ShardStatus
    requires n <= |ts|
  {
    if n == 0 then Complete
    else if ShardOutcome(c, ts, n - 1) != Complete then ShardOutcome(c, ts, n - 1)
    else if !TileFound(c, ts[n - 1]) then NoTile
    else if ShardFits(c, ts, n - 1) then Complete else Misfit
  }

  lemma {:induction false} FitsIsFound(c: Config, ts: seq<Tensor>, i: nat)
    requires i < |ts|
    ensures ShardFits(c, ts, i) ==> TileFound(c, ts[i])
  {
  }

  lemma {:induction false} OutcomeIff(c: Config, ts: seq<Tensor>, n: nat)
    requires n <= |ts|
    ensures ShardOutcome(c, ts, n) == Complete <==> forall i :: 0 <= i < n ==> ShardFits(c, ts, i)
  {
    hide ShardFits;
    hide TileFound;
    if n > 0 {
      OutcomeIff(c, ts, n - 1);
      FitsIsFound(c, ts, n - 1);
    }
  }

  lemma {:induction false} OutcomeStays(c: Config, ts: seq<Tensor>, i: nat, n: nat)
    requires i <= n <= |ts| && ShardOutcome(c, ts, i) != Complete
    ensures ShardOutcome(c, ts, n) == ShardOutcome(c, ts, i)
  {
    if i < n {
      OutcomeStays(c, ts, i, n - 1);
    }
  }

  // -------------------------------------------------------------------- file

  /** Rejected stands for the builder's ValueError, Unpackable for struct.error, Unscheduled for IndexError. */
  datatype BuildResult = Built(file: seq<Byte>) | Rejected(reason: string) | Unpackable | Unscheduled

  /** First byte of the data section. */
  function DataBase(ts: seq<Tensor>): nat {
    HEADER_SIZE + CONFIG_SIZE + |ts| * DESC_SIZE
  }

  function FileHeader(ts: seq<Tensor>, meta: bool): seq<Field> {
    var dataSize := DataOffset(ts, |ts|);
    HeaderFields(|ts|, dataSize, if meta then DataBase(ts) + dataSize else 0, if meta then |ts| * SHARD_RECORD_SIZE else 0)
  }

  predicate FileFits(c: Config, ts: seq<Tensor>, meta: bool)
  {
    DescriptorsFit(ts) && (meta ==> ShardsFit(c, ts)) && AllFit(FileHeader(ts, meta)) && AllFit(ConfigFields(c))
  }

  function File(c: Config, ts: seq<Tensor>, meta: bool): seq<Byte>
    requires FileFits(c, ts, meta)
  {
    Pack(FileHeader(ts, meta)) + Pack(ConfigFields(c)) + Descriptors(ts, |ts|) + Data(ts, |ts|)
    + if meta then Shards(c, ts, |ts|) else []
  }

  /** What the builder makes of a configuration and a tensor list. */
  function Build(c: Config, ts: seq<Tensor>, meta: bool): BuildResult
  {
    if |ts| != 3 + c.nLayers * 9 then Rejected("unexpected tensor count")
    else if !AllMatch(NamePlan(c), ts) then Rejected("tensor does not match the plan")
    else if !NamesFit(ts) then Rejected("tensor name does not fit its field")
    else if DescriptorsFit(ts) && meta && ShardOutcome(c, ts, |ts|) == NoTile then Unscheduled
    else if !FileFits(c, ts, meta) then Unpackable
    else Built(File(c, ts, meta))
  }

  // ------------------------------------------------------------- the program

  /** One shard record, if its layer has a tile and its integers fit. */
  method MakeShardRecord(c: Config, ts: seq<Tensor>, i: nat, assignment: seq<nat>, byteOffset: nat)
    returns (status: ShardStatus, record: seq<Byte>)
    requires i < |ts| && assignment == TileSchedule(c) && byteOffset == DataOffset(ts, i)
    ensures status == if !TileFound(c, ts[i]) then NoTile else if ShardFits(c, ts, i) then Complete else Misfit
    ensures status == Complete ==> record == ShardRecord(c, ts, i)
  {
    record := [];
    if !TileKnown(ts[i].name, c.nLayers, assignment) {
      return NoTile, record;
    }
    var fields := ShardFields(i, ts[i], TileFor(ts[i].name, c.nLayers, assignment), byteOffset);
    assert fields == ShardRecordFields(c, ts, i);
    hide ShardFields;
    if !AllFit(fields) {
      return Misfit, record;
    }
    status, record := Complete, Pack(fields);
  }

  /** `_build_shard_meta_blob`. */
  method BuildShardMeta(c: Config, ts: seq<Tensor>) returns (status: ShardStatus, blob: seq<Byte>)
    ensures status == ShardOutcome(c, ts, |ts|)
    ensures status == Complete <==> ShardsFit(c, ts)
    ensures status == Complete ==> blob == Shards(c, ts, |ts|)
  {
    var assignment := Schedule.LayerTileAssignment(LayerCount(c), if c.nTiles < 0 then 0 else c.nTiles);
    status, blob := ShardLoop(c, ts, assignment);
  }

  method ShardLoop(c: Config, ts: seq<Tensor>, assignment: seq<nat>) returns (status: ShardStatus, blob: seq<Byte>)
    requires assignment == TileSchedule(c)
    ensures status == ShardOutcome(c, ts, |ts|)
    ensures status == Complete <==> ShardsFit(c, ts)
    ensures status == Complete ==> blob == Shards(c, ts, |ts|)
  {
    hide TileSchedule;
    hide TileFound;
    hide ShardFits;
    hide ShardRecord;
    OutcomeIff(c, ts, |ts|);
    blob := [];
    var byteOffset := 0;
    for i := 0 to |ts|
      invariant byteOffset == DataOffset(ts, i)
      invariant ShardOutcome(c, ts, i) == Complete
      invariant ShardsFit(c, ts) ==> blob == Shards(c, ts, i)
    {
      var record;
      status, record := MakeShardRecord(c, ts, i, assignment, byteOffset);
      if status != Complete {
        OutcomeStays(c, ts, i + 1, |ts|);
        return;
      }
      blob := blob + record;
      byteOffset := byteOffset + |ts[i].data|;
    }
    status := Complete;
  }

  /** `_descriptor`. */
  method MakeDescriptor(t: Tensor, byteOffset: nat) returns (ok: bool, desc: seq<Byte>)
    requires NameFits(t.name)
    ensures ok <==> AllFit(DescriptorFields(t, byteOffset))
    ensures ok ==> desc == Pack(DescriptorFields(t, byteOffset))
  {
    var fields := DescriptorFields(t, byteOffset);
    hide DescriptorFields;
    ok := AllFit(fields);
    desc := [];
    if ok {
      desc := Pack(fields);
    }
  }

  /** The descriptor and data loop with its running offset. */
  method BuildSections(ts: seq<Tensor>) returns (ok: bool, descs: seq<Byte>, data: seq<Byte>)
    requires NamesFit(ts)
    ensures ok <==> DescriptorsFit(ts)
    ensures ok ==> descs == DescriptorSection(ts) && data == DataSection(ts)
  {
    descs, data := [], [];
    var byteOffset := 0;
    hide NameFits;
    hide DescriptorFields;
    hide AllFit;
    hide Pack;
    for i := 0 to |ts|
      invariant byteOffset == DataOffset(ts, i)
      invariant forall k :: 0 <= k < i ==> DescriptorFits(ts, k)
      invariant data == Data(ts, i)
      invariant DescriptorsFit(ts) ==> descs == Descriptors(ts, i)
    {
      var desc;
      ok, desc := MakeDescriptor(ts[i], byteOffset);
      if !ok {
        assert !DescriptorFits(ts, i);
        return;
      }
      descs := descs + desc;
      data := data + ts[i].data;
      byteOffset := byteOffset + |ts[i].data|;
    }
    ok := true;
  }

  /** The consistency loop. */
  method CheckTensors(plan: seq<PlanEntry>, ts: seq<Tensor>) returns (ok: bool)
    requires |plan| == |ts|
    ensures ok <==> AllMatch(plan, ts)
  {
    hide Matches;
    for i := 0 to |ts|
      invariant forall k :: 0 <= k < i ==> Matches(plan[k], ts[k])
    {
      if !Matches(plan[i], ts[i]) {
        return false;
      }
    }
    ok := true;
  }

  /** `_build_att1_bytes_from_tensors`. */
  method BuildAtt1(c: Config, ts: seq<Tensor>, meta: bool) returns (r: BuildResult)
    ensures r == Build(c, ts, meta)
  {
    if |ts| != 3 + c.nLayers * 9 {
      return Rejected("unexpected tensor count");
    }
    var ok := CheckTensors(NamePlan(c), ts);
    hide AllMatch;
    if !ok {
      return Rejected("tensor does not match the plan");
    }
    if !NamesFit(ts) {
      return Rejected("tensor name does not fit its field");
    }
    r := Assemble(c, ts, meta);
  }

  /** Sections first, then the header that records where they lie. */
  method Assemble(c: Config, ts: seq<Tensor>, meta: bool) returns (r: BuildResult)
    requires NamesFit(ts)
    ensures r == if DescriptorsFit(ts) && meta && ShardOutcome(c, ts, |ts|) == NoTile then Unscheduled
                 else if FileFits(c, ts, meta) then Built(File(c, ts, meta)) else Unpackable
  {
    hide NamesFit;
    hide DescriptorsFit;
    hide ShardsFit;
    hide ShardOutcome;
    hide Descriptors;
    hide Shards;
    hide Data;
    hide AllFit;
    hide Pack;
    var ok, descs, data := BuildSections(ts);
    if !ok {
      return Unpackable;
    }
    var blob: seq<Byte> := [];
    if meta {
      var status;
      status, blob := BuildShardMeta(c, ts);
      if status == NoTile {
        return Unscheduled;
      } else if status == Misfit {
        return Unpackable;
      }
    }
    var dataOffset := HEADER_SIZE + CONFIG_SIZE + |ts| * DESC_SIZE;
    var header := HeaderFields(|ts|, |data|, if meta then dataOffset + |data| else 0, |blob|);
    assert header == FileHeader(ts, meta);
    hide FileHeader;
    hide ConfigFields;
    if !AllFit(header) || !AllFit(ConfigFields(c)) {
      return Unpackable;
    }
    r := Built(Pack(header) + Pack(ConfigFields(c)) + descs + data + blob);
  }
}
