module Att1RoundTrip {
  // What the writer writes, the reader reads: every accepted configuration and tensor list comes back
  // field by field, and the sections tile the file.

  import opened Common
  import opened Bytes
  import opened Records
  import opened Decimal
  import opened TensorPlan
  import opened Att1Writer
  import Reader = Att1Reader

  // ------------------------------------------------------------------ tiling

  /** The sections in file order; each starts where the one before it ends. */
  lemma {:induction false} SectionsTile(c: Config, ts: seq<Tensor>, meta: bool)
    requires FileFits(c, ts, meta)
    ensures var file, n := File(c, ts, meta), |ts|;
            var dataSize := DataOffset(ts, n);
            && |Pack(FileHeader(ts, meta))| == HEADER_SIZE && |Pack(ConfigFields(c))| == CONFIG_SIZE
            && |file| == DataBase(ts) + dataSize + (if meta then n * SHARD_RECORD_SIZE else 0)
            && Slice(file, 0, HEADER_SIZE) == Pack(FileHeader(ts, meta))
            && Slice(file, HEADER_SIZE, CONFIG_SIZE) == Pack(ConfigFields(c))
            && Slice(file, HEADER_SIZE + CONFIG_SIZE, n * DESC_SIZE) == Descriptors(ts, n)
            && Slice(file, DataBase(ts), dataSize) == Data(ts, n)
            && (meta ==> Slice(file, DataBase(ts) + dataSize, n * SHARD_RECORD_SIZE) == Shards(c, ts, n))
  {
    hide *;
    FileUnfolds(c, ts, meta);
    FiveParts(Pack(FileHeader(ts, meta)), Pack(ConfigFields(c)), Descriptors(ts, |ts|), Data(ts, |ts|), ShardSection(c, ts, meta));
    ShardSectionIs(c, ts, meta);
  }

  /** The metadata section, empty unless it was asked for. */
  function ShardSection(c: Config, ts: seq<Tensor>, meta: bool): seq<Byte>
    requires FileFits(c, ts, meta)
  {
    if meta then Shards(c, ts, |ts|) else []
  }

  lemma {:induction false} ShardSectionIs(c: Config, ts: seq<Tensor>, meta: bool)
    requires FileFits(c, ts, meta)
    ensures meta ==> ShardsFit(c, ts) && ShardSection(c, ts, meta) == Shards(c, ts, |ts|)
    ensures !meta ==> ShardSection(c, ts, meta) == []
  {
    hide Shards;
  }

  lemma {:induction false} FileUnfolds(c: Config, ts: seq<Tensor>, meta: bool)
    requires FileFits(c, ts, meta)
    ensures DescriptorsFit(ts) && AllFit(FileHeader(ts, meta)) && AllFit(ConfigFields(c))
    ensures |Pack(FileHeader(ts, meta))| == HEADER_SIZE && |Pack(ConfigFields(c))| == CONFIG_SIZE
    ensures File(c, ts, meta)
         == Pack(FileHeader(ts, meta)) + Pack(ConfigFields(c)) + Descriptors(ts, |ts|) + Data(ts, |ts|) + ShardSection(c, ts, meta)
    ensures DataBase(ts) == HEADER_SIZE + CONFIG_SIZE + |ts| * DESC_SIZE
  {
    HeaderOffsets(ts, meta);
    ConfigOffsets(c);
    hide FileHeader;
    hide ConfigFields;
    hide Pack;
    hide Offset;
    hide Descriptors;
    hide Data;
    hide Shards;
  }

  lemma {:induction false} FiveParts(a: seq<Byte>, b: seq<Byte>, c: seq<Byte>, d: seq<Byte>, e: seq<Byte>)
    ensures var s := a + b + c + d + e;
            && |s| == |a| + |b| + |c| + |d| + |e|
            && Slice(s, 0, |a|) == a
            && Slice(s, |a|, |b|) == b
            && Slice(s, |a| + |b|, |c|) == c
            && Slice(s, |a| + |b| + |c|, |d|) == d
            && Slice(s, |a| + |b| + |c| + |d|, |e|) == e
  {
  }

  lemma {:induction false} HeaderOffsets(ts: seq<Tensor>, meta: bool)
    ensures var f := FileHeader(ts, meta);
            && Offset(f, 0) == 0 && Offset(f, 1) == 8 && Offset(f, 2) == 12 && Offset(f, 3) == 16 && Offset(f, 4) == 24
            && Offset(f, 5) == 32 && Offset(f, 6) == 40 && Offset(f, 7) == 48 && Offset(f, 8) == 56 && Offset(f, 9) == 64
            && Offset(f, 10) == 72 && Offset(f, |f|) == HEADER_SIZE
  {
    var f := FileHeader(ts, meta);
    assert Offset(f, 2) == Offset(f, 1) + 4 == 12;
    assert Offset(f, 4) == Offset(f, 3) + 8 == Offset(f, 2) + 12;
    assert Offset(f, 6) == Offset(f, 5) + 8 == Offset(f, 4) + 16;
    assert Offset(f, 8) == Offset(f, 7) + 8 == Offset(f, 6) + 16;
    assert Offset(f, 10) == Offset(f, 9) + 8 == Offset(f, 8) + 16;
  }

  lemma {:induction false} ConfigOffsets(c: Config)
    ensures var f := ConfigFields(c);
            && Offset(f, 0) == 0 && Offset(f, 1) == 4 && Offset(f, 2) == 8 && Offset(f, 3) == 12 && Offset(f, 4) == 16
            && Offset(f, 5) == 20 && Offset(f, 6) == 24 && Offset(f, 7) == 28 && Offset(f, 8) == 32 && Offset(f, |f|) == CONFIG_SIZE
  {
    var f := ConfigFields(c);
    assert Offset(f, 2) == Offset(f, 1) + 4 == 8;
    assert Offset(f, 4) == Offset(f, 3) + 4 == Offset(f, 2) + 8;
    assert Offset(f, 6) == Offset(f, 5) + 4 == Offset(f, 4) + 8;
    assert Offset(f, 8) == Offset(f, 7) + 4 == Offset(f, 6) + 8;
  }

  // ------------------------------------------------------- pieces of sections

  lemma {:induction false} DescriptorAt(ts: seq<Tensor>, n: nat, i: nat)
    requires i < n <= |ts| && DescriptorsFit(ts)
    ensures Slice(Descriptors(ts, n), i * DESC_SIZE, DESC_SIZE) == Descriptor(ts, i)
  {
    hide Slice;
    hide Descriptor;
    hide DescriptorFits;
    var before, last := Descriptors(ts, n - 1), Descriptor(ts, n - 1);
    if i < n - 1 {
      DescriptorAt(ts, n - 1, i);
      SliceLeft(before, last, i * DESC_SIZE, DESC_SIZE);
    } else {
      SliceRight(before, last, i * DESC_SIZE, DESC_SIZE);
      SliceWhole(last);
    }
  }

  lemma {:induction false} OffsetsGrow(ts: seq<Tensor>, i: nat, n: nat)
    requires i < n <= |ts|
    ensures DataOffset(ts, i) + |ts[i].data| == DataOffset(ts, i + 1) <= DataOffset(ts, n)
  {
    if i < n - 1 {
      OffsetsGrow(ts, i, n - 1);
    }
  }

  lemma {:induction false} PayloadAt(ts: seq<Tensor>, n: nat, i: nat)
    requires i < n <= |ts|
    ensures DataOffset(ts, i) + |ts[i].data| <= DataOffset(ts, n)
    ensures Slice(Data(ts, n), DataOffset(ts, i), |ts[i].data|) == ts[i].data
  {
    hide Slice;
    OffsetsGrow(ts, i, n);
    var before, last := Data(ts, n - 1), ts[n - 1].data;
    if i < n - 1 {
      PayloadAt(ts, n - 1, i);
      SliceLeft(before, last, DataOffset(ts, i), |ts[i].data|);
    } else {
      SliceRight(before, last, DataOffset(ts, i), |last|);
      SliceWhole(last);
    }
  }

  lemma {:induction false} ShardAt(c: Config, ts: seq<Tensor>, n: nat, i: nat)
    requires i < n <= |ts| && ShardsFit(c, ts)
    ensures Slice(Shards(c, ts, n), i * SHARD_RECORD_SIZE, SHARD_RECORD_SIZE) == ShardRecord(c, ts, i)
  {
    hide Slice;
    hide ShardRecord;
    hide ShardFits;
    var before, last := Shards(c, ts, n - 1), ShardRecord(c, ts, n - 1);
    if i < n - 1 {
      ShardAt(c, ts, n - 1, i);
      SliceLeft(before, last, i * SHARD_RECORD_SIZE, SHARD_RECORD_SIZE);
    } else {
      SliceRight(before, last, i * SHARD_RECORD_SIZE, SHARD_RECORD_SIZE);
      SliceWhole(last);
    }
  }

  // ------------------------------------------------------------------- names

  ghost predicate EndsInT(name: string) {
    |name| > 0 && name[|name| - 1] == 't'
  }

  ghost predicate PlanLike(e: PlanEntry) {
    EndsInT(e.name) && 1 <= |e.shape| <= 2
  }

  lemma {:induction false} LayerNameEnds(layer: nat, suffix: string)
    requires |suffix| > 0
    ensures var name := LayerName(layer, suffix);
            |name| > 0 && name[|name| - 1] == suffix[|suffix| - 1]
  {
  }

  /** Every planned tensor has a name that does not end in NUL and one or two dimensions. */
  lemma {:induction false} PlanIsPlanLike(c: Config, i: nat)
    requires i < |NamePlan(c)|
    ensures PlanLike(NamePlan(c)[i])
  {
    hide EntriesUpTo;
    var n := LayerCount(c);
    if 0 < i <= 9 * n {
      EntryOfLayer(c, n, i - 1);
      LayerEntryName(c, (i - 1) / 9, (i - 1) % 9);
      LayerNameEnds((i - 1) / 9, Suffix((i - 1) % 9));
      hide LayerEntries;
      hide LayerName;
    } else {
      assert EndsInT("tok_embeddings.weight") && EndsInT("output_norm.weight") && EndsInT("output.weight");
    }
  }

  lemma {:induction false} StripZeros(b: seq<Byte>, zeros: nat)
    requires |b| > 0 && b[|b| - 1] != 0
    ensures Reader.StripNuls(b + seq(zeros, _ => 0)) == b
  {
    var s := b + seq(zeros, _ => 0);
    if zeros > 0 {
      assert s[..|s| - 1] == b + seq(zeros - 1, _ => 0);
      StripZeros(b, zeros - 1);
    } else {
      assert s == b;
    }
  }

  lemma {:induction false} NameRoundTrip(name: string)
    requires NameFits(name) && EndsInT(name)
    ensures Reader.DecodeAscii(Reader.StripNuls(NameField(name))) == name
  {
    var b: seq<Byte> := seq(|name|, i requires 0 <= i < |name| => name[i] as int);
    StripZeros(b, NAME_SIZE - |name|);
    assert NameField(name) == b + seq(NAME_SIZE - |name|, _ => 0);
  }

  // ------------------------------------------------------------- one tensor

  /** Name, dtype, ndims, shape and payload come back; the flags field reads as zero. */
  ghost predicate ReadsBackAs(t: Tensor, m: Reader.ModelTensor) {
    && m.name == t.name && m.dtype == t.dtype && m.ndims == |t.shape| == |m.shape|
    && (forall k :: 0 <= k < |t.shape| ==> m.shape[k] == t.shape[k])
    && m.raw == t.data && m.flags == 0
  }

  ghost predicate ParsesAs(t: Tensor, r: Result<Reader.ModelTensor>) {
    match r
    case Err(_) => false
    case Ok(m) => ReadsBackAs(t, m)
  }

  /** A descriptor record at dp and the payload at dataOffset + offset parse back to the tensor. */
  lemma {:induction false} DescriptorParses(data: seq<Byte>, dp: nat, t: Tensor, offset: nat, dataOffset: nat, dataSize: nat)
    requires NameFits(t.name) && EndsInT(t.name) && 1 <= |t.shape| <= 4
    requires Sits(data, dp, DescriptorFields(t, offset))
    requires dataOffset + dataSize <= |data| && offset + |t.data| <= dataSize
    requires Slice(data, dataOffset + offset, |t.data|) == t.data
    ensures dp + DESC_SIZE <= |data|
    ensures ParsesAs(t, Reader.ParseTensor(data, dp, dataOffset, dataSize))
  {
    var f := DescriptorFields(t, offset);
    DescriptorOffsets(t, offset);
    DescriptorBytes(data, dp, t, offset);
    NameRoundTrip(t.name);
    ShapeReads(data, dp, t, offset);
    hide Sits;
    hide Offset;
    hide Slice;
    hide NameField;
    hide AllFit;
    hide Reader.StripNuls;
    hide Reader.DecodeAscii;
    hide ReadU32;
    hide ReadU64;
  }

  lemma {:induction false} DescriptorFieldsAre(t: Tensor, offset: nat)
    requires NameFits(t.name)
    ensures var f := DescriptorFields(t, offset);
            && |f| == 11 && f[0] == Raw(NameField(t.name)) && f[1] == U32(t.dtype) && f[2] == U32(|t.shape|)
            && f[7] == U64(offset) && f[8] == U64(|t.data|) && f[9] == U32(0) && f[10] == U32(t.flags)
  {
    hide NameField;
  }

  /** The integer fields and the name field of a descriptor, at the reader's positions. */
  lemma {:induction false} DescriptorBytes(data: seq<Byte>, dp: nat, t: Tensor, offset: nat)
    requires NameFits(t.name) && Sits(data, dp, DescriptorFields(t, offset))
    ensures dp + DESC_SIZE <= |data|
    ensures Slice(data, dp, NAME_SIZE) == NameField(t.name)
    ensures ReadU32(data, dp + 64) == t.dtype && ReadU32(data, dp + 68) == |t.shape|
    ensures ReadU64(data, dp + 104) == offset && ReadU64(data, dp + 112) == |t.data|
    ensures ReadU32(data, dp + 120) == 0 && ReadU32(data, dp + 124) == t.flags
  {
    hide DescriptorFields;
    hide Sits;
    hide Slice;
    hide Offset;
    hide NameField;
    hide NameFits;
    hide ReadU32;
    hide ReadU64;
    var f := DescriptorFields(t, offset);
    DescriptorOffsets(t, offset);
    DescriptorFieldsAre(t, offset);
    SitsMeans(data, dp, f, 0);
    FieldBytes(data, dp, f, 0);
    ReadU32Field(data, dp, f, 1, dp + 64);
    ReadU32Field(data, dp, f, 2, dp + 68);
    ReadU64Field(data, dp, f, 7, dp + 104);
    ReadU64Field(data, dp, f, 8, dp + 112);
    ReadU32Field(data, dp, f, 9, dp + 120);
    ReadU32Field(data, dp, f, 10, dp + 124);
  }

  lemma {:induction false} ShapeReads(data: seq<Byte>, dp: nat, t: Tensor, offset: nat)
    requires NameFits(t.name) && Sits(data, dp, DescriptorFields(t, offset)) && |t.shape| <= 4
    ensures dp + DESC_SIZE <= |data|
    ensures forall k :: 0 <= k < |t.shape| ==> Reader.ReadShape(data, dp, |t.shape|)[k] == t.shape[k]
  {
    var f := DescriptorFields(t, offset);
    DescriptorOffsets(t, offset);
    DescriptorBytes(data, dp, t, offset);
    forall k | 0 <= k < |t.shape|
      ensures Reader.ReadShape(data, dp, |t.shape|)[k] == t.shape[k]
    {
      assert f[3 + k] == U64(t.shape[k]);
      assert Offset(f, 3 + k) == 72 + 8 * k;
      hide DescriptorFields;
      hide Sits;
      hide Offset;
      ReadU64Field(data, dp, f, 3 + k, dp + 72 + k * 8);
      hide ReadU64;
    }
  }

  // -------------------------------------------------------------- whole file

  /** The builder's verdict, taken apart. */
  lemma {:induction false} BuiltMeans(c: Config, ts: seq<Tensor>, meta: bool)
    requires Build(c, ts, meta).Built?
    ensures FileFits(c, ts, meta) && Build(c, ts, meta).file == File(c, ts, meta)
    ensures forall i :: 0 <= i < |ts| ==> EndsInT(ts[i].name) && 1 <= |ts[i].shape| <= 2
    ensures |ts| == |NamePlan(c)| && AllMatch(NamePlan(c), ts)
  {
    hide NamePlan;
    hide File;
    hide FileFits;
    forall i | 0 <= i < |ts|
      ensures EndsInT(ts[i].name) && 1 <= |ts[i].shape| <= 2
    {
      PlanIsPlanLike(c, i);
      assert Matches(NamePlan(c)[i], ts[i]);
    }
  }

  /** The descriptor and data sections of `ts`, at the positions the header will record. */
  ghost predicate LaidOut(file: seq<Byte>, ts: seq<Tensor>) {
    && DescriptorsFit(ts)
    && Holds(file, HEADER_SIZE + CONFIG_SIZE, Descriptors(ts, |ts|))
    && Holds(file, DataBase(ts), Data(ts, |ts|))
  }

  lemma {:induction false} LaidOutMeans(file: seq<Byte>, ts: seq<Tensor>)
    requires LaidOut(file, ts)
    ensures DescriptorsFit(ts)
    ensures Holds(file, HEADER_SIZE + CONFIG_SIZE, Descriptors(ts, |ts|))
    ensures Holds(file, DataBase(ts), Data(ts, |ts|))
  {
    hide DescriptorsFit;
    hide Holds;
    hide Descriptors;
    hide Data;
    hide DataBase;
  }

  lemma {:induction false} FileLaidOut(c: Config, ts: seq<Tensor>, meta: bool)
    requires FileFits(c, ts, meta)
    ensures LaidOut(File(c, ts, meta), ts)
  {
    SectionsTile(c, ts, meta);
    FileUnfolds(c, ts, meta);
    hide File;
    hide Slice;
    hide Descriptors;
    hide Data;
    hide FileFits;
    hide DescriptorsFit;
  }

  lemma {:induction false} DescriptorUnfolds(ts: seq<Tensor>, i: nat)
    requires DescriptorsFit(ts) && i < |ts|
    ensures DescriptorFits(ts, i) && NameFits(ts[i].name)
    ensures AllFit(DescriptorFields(ts[i], DataOffset(ts, i)))
    ensures Descriptor(ts, i) == Pack(DescriptorFields(ts[i], DataOffset(ts, i)))
  {
    hide Pack;
    hide Offset;
    hide AllFit;
    hide DescriptorFields;
    hide NameFits;
    hide DataOffset;
  }

  function DescriptorPosition(i: nat): nat {
    HEADER_SIZE + CONFIG_SIZE + i * DESC_SIZE
  }

  lemma {:induction false} DescriptorHeld(file: seq<Byte>, ts: seq<Tensor>, i: nat)
    requires LaidOut(file, ts) && i < |ts|
    ensures DescriptorFits(ts, i)
    ensures Holds(file, DescriptorPosition(i), Descriptor(ts, i))
  {
    hide Slice;
    hide DescriptorFits;
    hide Descriptors;
    hide Descriptor;
    LaidOutMeans(file, ts);
    DescriptorUnfolds(ts, i);
    DescriptorAt(ts, |ts|, i);
    HoldsPart(file, HEADER_SIZE + CONFIG_SIZE, Descriptors(ts, |ts|), i * DESC_SIZE, DESC_SIZE);
  }

  lemma {:induction false} SitsIf(data: seq<Byte>, base: nat, fields: seq<Field>)
    requires AllFit(fields) && Holds(data, base, Pack(fields))
    ensures Sits(data, base, fields)
  {
    hide Slice;
    hide Pack;
  }

  lemma {:induction false} PayloadSits(file: seq<Byte>, ts: seq<Tensor>, i: nat)
    requires LaidOut(file, ts) && i < |ts|
    ensures DataOffset(ts, i) + |ts[i].data| <= DataOffset(ts, |ts|)
    ensures DataBase(ts) + DataOffset(ts, |ts|) <= |file|
    ensures Slice(file, DataBase(ts) + DataOffset(ts, i), |ts[i].data|) == ts[i].data
  {
    hide *;
    LaidOutMeans(file, ts);
    HoldsMeans(file, DataBase(ts), Data(ts, |ts|));
    PayloadAt(ts, |ts|, i);
    HoldsPart(file, DataBase(ts), Data(ts, |ts|), DataOffset(ts, i), |ts[i].data|);
    HoldsMeans(file, DataBase(ts) + DataOffset(ts, i), ts[i].data);
  }

  lemma {:induction false} TensorReadsBack(file: seq<Byte>, ts: seq<Tensor>, i: nat)
    requires LaidOut(file, ts) && i < |ts|
    requires EndsInT(ts[i].name) && 1 <= |ts[i].shape| <= 2
    ensures DescriptorPosition(i) + DESC_SIZE <= |file| && DataBase(ts) + DataOffset(ts, |ts|) <= |file|
    ensures ParsesAs(ts[i], Reader.ParseTensor(file, DescriptorPosition(i), DataBase(ts), DataOffset(ts, |ts|)))
  {
    hide *;
    LaidOutMeans(file, ts);
    DescriptorUnfolds(ts, i);
    DescriptorHeld(file, ts, i);
    SitsIf(file, DescriptorPosition(i), DescriptorFields(ts[i], DataOffset(ts, i)));
    PayloadSits(file, ts, i);
    DescriptorParses(file, DescriptorPosition(i), ts[i], DataOffset(ts, i), DataBase(ts), DataOffset(ts, |ts|));
  }

  lemma {:induction false} TensorsReadBack(file: seq<Byte>, ts: seq<Tensor>, n: nat)
    requires LaidOut(file, ts) && n <= |ts|
    requires forall i :: 0 <= i < |ts| ==> EndsInT(ts[i].name) && 1 <= |ts[i].shape| <= 2
    ensures HEADER_SIZE + CONFIG_SIZE + n * DESC_SIZE <= |file| && DataBase(ts) + DataOffset(ts, |ts|) <= |file|
    ensures AllReadBack(ts[..n], Reader.ParseTensors(file, HEADER_SIZE + CONFIG_SIZE, DataBase(ts), DataOffset(ts, |ts|), n))
  {
    hide Slice;
    hide Descriptors;
    hide Data;
    hide DataOffset;
    hide DescriptorFits;
    hide EndsInT;
    hide ReadsBackAs;
    hide Reader.ParseTensor;
    if n > 0 {
      TensorsReadBack(file, ts, n - 1);
      TensorReadsBack(file, ts, n - 1);
    }
  }

  ghost predicate AllReadBack(ts: seq<Tensor>, r: Result<seq<Reader.ModelTensor>>) {
    match r
    case Err(_) => false
    case Ok(ms) => |ms| == |ts| && forall i :: 0 <= i < |ts| ==> ReadsBackAs(ts[i], ms[i])
  }

  /** The nine configuration fields come back. */
  ghost predicate ConfigReadsBackAs(c: Config, m: Reader.ModelConfig) {
    && m.vocabSize == c.vocabSize && m.nLayers == c.nLayers && m.nHeads == c.nHeads && m.dModel == c.dModel
    && m.dFf == c.dFf && m.maxSeqLen == c.maxSeqLen && m.ropeDim == c.ropeDim && m.nTiles == c.nTiles
    && m.shardCount == c.shardCount
  }

  lemma {:induction false} ConfigReads(data: seq<Byte>, base: nat, c: Config)
    requires Sits(data, base, ConfigFields(c))
    ensures base + CONFIG_SIZE <= |data|
    ensures ConfigReadsBackAs(c, Reader.ReadConfig(data, base))
  {
    var f := ConfigFields(c);
    ConfigOffsets(c);
    SitsMeans(data, base, f, 0);
    assert |f| == 9 && f[0] == U32(c.vocabSize) && f[1] == U32(c.nLayers) && f[2] == U32(c.nHeads) && f[3] == U32(c.dModel);
    assert f[4] == U32(c.dFf) && f[5] == U32(c.maxSeqLen) && f[6] == U32(c.ropeDim) && f[7] == U32(c.nTiles) && f[8] == U32(c.shardCount);
    hide ConfigFields;
    hide Sits;
    hide Offset;
    hide ReadU32;
    ReadU32Field(data, base, f, 0, base);
    ReadU32Field(data, base, f, 1, base + 4);
    ReadU32Field(data, base, f, 2, base + 8);
    ReadU32Field(data, base, f, 3, base + 12);
    ReadU32Field(data, base, f, 4, base + 16);
    ReadU32Field(data, base, f, 5, base + 20);
    ReadU32Field(data, base, f, 6, base + 24);
    ReadU32Field(data, base, f, 7, base + 28);
    ReadU32Field(data, base, f, 8, base + 32);
  }

  /** The header fields as the reader sees them. */
  lemma {:induction false} HeaderReads(data: seq<Byte>, ts: seq<Tensor>, meta: bool)
    requires Sits(data, 0, FileHeader(ts, meta))
    ensures |data| >= HEADER_SIZE && Slice(data, 0, 8) == Magic()
    ensures ReadU32(data, 8) == 1 && ReadU32(data, 12) == HEADER_SIZE
    ensures ReadU64(data, 16) == HEADER_SIZE && ReadU64(data, 24) == CONFIG_SIZE
    ensures ReadU64(data, 32) == HEADER_SIZE + CONFIG_SIZE && ReadU64(data, 40) == |ts|
    ensures ReadU64(data, 48) == DataBase(ts) && ReadU64(data, 56) == DataOffset(ts, |ts|)
  {
    var f := FileHeader(ts, meta);
    HeaderOffsets(ts, meta);
    SitsMeans(data, 0, f, 0);
    assert |f| == 11 && f[0] == Raw(Magic()) && f[1] == U32(1) && f[2] == U32(HEADER_SIZE) && f[3] == U64(HEADER_SIZE);
    assert f[4] == U64(CONFIG_SIZE) && f[5] == U64(HEADER_SIZE + CONFIG_SIZE) && f[6] == U64(|ts|);
    assert f[7] == U64(DataBase(ts)) && f[8] == U64(DataOffset(ts, |ts|));
    hide FileHeader;
    hide Sits;
    hide Offset;
    hide Slice;
    hide ReadU32;
    hide ReadU64;
    FieldBytes(data, 0, f, 0);
    ReadU32Field(data, 0, f, 1, 8);
    ReadU32Field(data, 0, f, 2, 12);
    ReadU64Field(data, 0, f, 3, 16);
    ReadU64Field(data, 0, f, 4, 24);
    ReadU64Field(data, 0, f, 5, 32);
    ReadU64Field(data, 0, f, 6, 40);
    ReadU64Field(data, 0, f, 7, 48);
    ReadU64Field(data, 0, f, 8, 56);
  }

  /** Version, configuration and all tensors come back. */
  ghost predicate FileReadsBack(c: Config, ts: seq<Tensor>, r: Result<Reader.Model>) {
    match r
    case Err(_) => false
    case Ok(m) =>
      && m.version == 1 && ConfigReadsBackAs(c, m.config)
      && |m.tensors| == |ts| && forall i :: 0 <= i < |ts| ==> ReadsBackAs(ts[i], m.tensors[i])
  }

  /** A version 1 header whose sections lie in the file leads the reader to configuration and tensors. */
  lemma {:induction false} ParseFollowsHeader(data: seq<Byte>, c: Config, ts: seq<Tensor>, dataOffset: nat, dataSize: nat)
    requires |data| >= HEADER_SIZE && Slice(data, 0, 8) == Magic()
    requires ReadU32(data, 8) == 1 && ReadU32(data, 12) == HEADER_SIZE
    requires ReadU64(data, 16) == HEADER_SIZE && ReadU64(data, 24) == CONFIG_SIZE
    requires ReadU64(data, 32) == HEADER_SIZE + CONFIG_SIZE && ReadU64(data, 40) == |ts|
    requires ReadU64(data, 48) == dataOffset && ReadU64(data, 56) == dataSize
    requires HEADER_SIZE + CONFIG_SIZE + |ts| * DESC_SIZE <= |data| && dataOffset + dataSize <= |data|
    requires ConfigReadsBackAs(c, Reader.ReadConfig(data, HEADER_SIZE))
    requires AllReadBack(ts, Reader.ParseTensors(data, HEADER_SIZE + CONFIG_SIZE, dataOffset, dataSize, |ts|))
    ensures FileReadsBack(c, ts, Reader.Parse(data))
  {
    hide Slice;
    hide ReadU32;
    hide ReadU64;
    hide Reader.ParseTensors;
    hide Reader.ReadConfig;
    hide ReadsBackAs;
    hide ConfigReadsBackAs;
  }

  /** Reading a built file returns its configuration and all of its tensors. */
  lemma {:induction false} FileRoundTrip(c: Config, ts: seq<Tensor>, meta: bool)
    requires Build(c, ts, meta).Built?
    ensures FileReadsBack(c, ts, Reader.Parse(Build(c, ts, meta).file))
  {
    hide *;
    BuiltMeans(c, ts, meta);
    var file := File(c, ts, meta);
    SectionsTile(c, ts, meta);
    FileUnfolds(c, ts, meta);
    FileLaidOut(c, ts, meta);
    TensorsReadBack(file, ts, |ts|);
    TakeAll(ts);
    HeldSections(file, c, ts, meta);
    HeaderReads(file, ts, meta);
    ConfigReads(file, HEADER_SIZE, c);
    ParseFollowsHeader(file, c, ts, DataBase(ts), DataOffset(ts, |ts|));
  }

  lemma {:induction false} HeldSections(file: seq<Byte>, c: Config, ts: seq<Tensor>, meta: bool)
    requires AllFit(FileHeader(ts, meta)) && AllFit(ConfigFields(c))
    requires |Pack(FileHeader(ts, meta))| == HEADER_SIZE && |Pack(ConfigFields(c))| == CONFIG_SIZE
    requires HEADER_SIZE + CONFIG_SIZE <= |file|
    requires Slice(file, 0, HEADER_SIZE) == Pack(FileHeader(ts, meta))
    requires Slice(file, HEADER_SIZE, CONFIG_SIZE) == Pack(ConfigFields(c))
    ensures Sits(file, 0, FileHeader(ts, meta)) && Sits(file, HEADER_SIZE, ConfigFields(c))
  {
    hide Slice;
    hide Pack;
    hide FileHeader;
    hide ConfigFields;
    SitsIf(file, 0, FileHeader(ts, meta));
    SitsIf(file, HEADER_SIZE, ConfigFields(c));
  }

  /** The reader takes flags from the shard_id word, so a q4 tensor's group size survives the file
      exactly when the writer's own group size was the default. */
  lemma {:induction false} GroupSizeSurvivesIff(c: Config, ts: seq<Tensor>, meta: bool, i: nat)
    requires Build(c, ts, meta).Built? && i < |ts|
    ensures FileReadsBack(c, ts, Reader.Parse(Build(c, ts, meta).file))
    ensures Reader.Parse(Build(c, ts, meta).file).value.tensors[i].GroupSize() == EffectiveGroup(ts[i].flags)
      <==> ts[i].flags % 256 in {0, Q4_GROUP_SIZE}
  {
    hide Build;
    hide File;
    hide FileFits;
    hide Reader.Parse;
    FileRoundTrip(c, ts, meta);
  }
}
