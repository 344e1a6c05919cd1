module FileMap {
  // Where every byte of a built .att1 file comes from.

  import opened Common
  import opened Tally
  import opened Bytes
  import opened Records
  import opened TensorPlan
  import opened Att1Writer
  import opened Att1RoundTrip
  import opened ShardMetadata

  /** Four bytes, the lowest first. */
  function Word(f: seq<Byte>, p: nat): int
    requires p + 4 <= |f|
  {
    f[p] as int + 0x100 * f[p + 1] as int + 0x1_0000 * f[p + 2] as int + 0x100_0000 * f[p + 3] as int
  }

  /** Eight bytes, the lowest first. */
  function Long(f: seq<Byte>, p: nat): int
    requires p + 8 <= |f|
  {
    Word(f, p) + 0x1_0000_0000 * Word(f, p + 4)
  }

  lemma {:induction false} FirstFour(b: seq<Byte>)
    requires |b| >= 4
    ensures FromLe(b) == b[0] + 0x100 * b[1] + 0x1_0000 * b[2] + 0x100_0000 * b[3] + 0x1_0000_0000 * FromLe(b[4..])
  {
    assert b[1..][1..] == b[2..] && b[2..][1..] == b[3..] && b[3..][1..] == b[4..];
    assert FromLe(b[3..]) == b[3] + 256 * FromLe(b[4..]);
    assert FromLe(b[2..]) == b[2] + 256 * FromLe(b[3..]);
    assert FromLe(b[1..]) == b[1] + 256 * FromLe(b[2..]);
  }

  lemma {:induction false} WordIs(f: seq<Byte>, p: nat)
    requires p + 4 <= |f|
    ensures ReadU32(f, p) == Word(f, p)
  {
    var b := Slice(f, p, 4);
    FirstFour(b);
    assert b[4..] == [];
  }

  lemma {:induction false} LongIs(f: seq<Byte>, p: nat)
    requires p + 8 <= |f|
    ensures ReadU64(f, p) == Long(f, p)
  {
    var b := Slice(f, p, 8);
    FirstFour(b);
    FirstFour(b[4..]);
    assert b[4..][4..] == [];
    assert forall k :: 0 <= k < 4 ==> b[4..][k] == b[4 + k];
  }

  // ---------------------------------------------------------------- header

  function DataLength(): Tensor -> int {
    (t: Tensor) => |t.data|
  }

  /** Bytes of the first n tensors. */
  function BytesUpTo(ts: seq<Tensor>, n: nat): int
    requires n <= |ts|
  {
    Total(ts[..n], DataLength())
  }

  lemma {:induction false} BytesUpToIs(ts: seq<Tensor>, n: nat)
    requires n <= |ts|
    ensures DataOffset(ts, n) == BytesUpTo(ts, n)
  {
    if n > 0 {
      BytesUpToIs(ts, n - 1);
      assert ts[..n][..n - 1] == ts[..n - 1];
    }
  }

  ghost predicate HeaderMapped(f: seq<Byte>, n: nat, dataSize: int, meta: bool) {
    && |f| == 116 + 128 * n + dataSize + (if meta then 120 * n else 0) && |f| >= 116
    && (forall k :: 0 <= k < 8 ==> f[k] == "ATT1MODL"[k] as int)
    && Word(f, 8) == 1 && Word(f, 12) == 80
    && Long(f, 16) == 80 && Long(f, 24) == 36 && Long(f, 32) == 116 && Long(f, 40) == n
    && Long(f, 48) == 116 + 128 * n && Long(f, 56) == dataSize
    && Long(f, 64) == (if meta then 116 + 128 * n + dataSize else 0) && Long(f, 72) == (if meta then 120 * n else 0)
  }

  ghost predicate ConfigMapped(f: seq<Byte>, c: Config) {
    && |f| >= 116
    && Word(f, 80) == c.vocabSize && Word(f, 84) == c.nLayers && Word(f, 88) == c.nHeads && Word(f, 92) == c.dModel
    && Word(f, 96) == c.dFf && Word(f, 100) == c.maxSeqLen && Word(f, 104) == c.ropeDim && Word(f, 108) == c.nTiles
    && Word(f, 112) == c.shardCount
  }

  lemma {:induction false} MagicIs(f: seq<Byte>)
    requires |f| >= 8 && Slice(f, 0, 8) == Magic()
    ensures forall k :: 0 <= k < 8 ==> f[k] == "ATT1MODL"[k] as int
  {
    forall k | 0 <= k < 8
      ensures f[k] == "ATT1MODL"[k] as int
    {
      SliceAt(f, 0, 8, k);
    }
  }

  lemma {:induction false} ShardWords(f: seq<Byte>, ts: seq<Tensor>, meta: bool)
    requires Sits(f, 0, FileHeader(ts, meta))
    ensures |f| >= 80
    ensures ReadU64(f, 64) == (if meta then DataBase(ts) + DataOffset(ts, |ts|) else 0)
    ensures ReadU64(f, 72) == if meta then |ts| * SHARD_RECORD_SIZE else 0
  {
    var fields := FileHeader(ts, meta);
    HeaderOffsets(ts, meta);
    SitsMeans(f, 0, fields, 0);
    assert |fields| == 11 && fields[9] == U64(if meta then DataBase(ts) + DataOffset(ts, |ts|) else 0);
    assert fields[10] == U64(if meta then |ts| * SHARD_RECORD_SIZE else 0);
    hide FileHeader;
    hide Sits;
    hide Offset;
    hide ReadU64;
    ReadU64Field(f, 0, fields, 9, 64);
    ReadU64Field(f, 0, fields, 10, 72);
  }

  lemma {:induction false} HeaderWords(f: seq<Byte>, ts: seq<Tensor>, meta: bool)
    requires Sits(f, 0, FileHeader(ts, meta)) && |f| == DataBase(ts) + DataOffset(ts, |ts|) + if meta then |ts| * SHARD_RECORD_SIZE else 0
    ensures HeaderMapped(f, |ts|, DataOffset(ts, |ts|), meta)
  {
    HeaderReads(f, ts, meta);
    ShardWords(f, ts, meta);
    MagicIs(f);
    hide Sits;
    hide Slice;
    hide ReadU32;
    hide ReadU64;
    hide Word;
    hide Long;
    hide Magic;
    WordIs(f, 8);
    WordIs(f, 12);
    LongIs(f, 16);
    LongIs(f, 24);
    LongIs(f, 32);
    LongIs(f, 40);
    LongIs(f, 48);
    LongIs(f, 56);
    LongIs(f, 64);
    LongIs(f, 72);
  }

  lemma {:induction false} ConfigWords(f: seq<Byte>, c: Config)
    requires Sits(f, 80, ConfigFields(c))
    ensures ConfigMapped(f, c)
  {
    var fields := ConfigFields(c);
    ConfigOffsets(c);
    SitsMeans(f, 80, fields, 0);
    assert |fields| == 9 && fields[0] == U32(c.vocabSize) && fields[1] == U32(c.nLayers) && fields[2] == U32(c.nHeads) && fields[3] == U32(c.dModel);
    assert fields[4] == U32(c.dFf) && fields[5] == U32(c.maxSeqLen) && fields[6] == U32(c.ropeDim) && fields[7] == U32(c.nTiles);
    assert fields[8] == U32(c.shardCount);
    hide ConfigFields;
    hide Sits;
    hide Offset;
    hide ReadU32;
    hide Word;
    WordField(f, 80, fields, 0, 80);
    WordField(f, 80, fields, 1, 84);
    WordField(f, 80, fields, 2, 88);
    WordField(f, 80, fields, 3, 92);
    WordField(f, 80, fields, 4, 96);
    WordField(f, 80, fields, 5, 100);
    WordField(f, 80, fields, 6, 104);
    WordField(f, 80, fields, 7, 108);
    WordField(f, 80, fields, 8, 112);
  }

  lemma {:induction false} WordField(f: seq<Byte>, base: nat, fields: seq<Field>, i: nat, at: nat)
    requires Sits(f, base, fields) && i < |fields| && fields[i].U32? && at == base + Offset(fields, i)
    ensures at + 4 <= |f| && Word(f, at) == fields[i].n
  {
    hide *;
    ReadU32Field(f, base, fields, i, at);
    WordIs(f, at);
  }

  lemma {:induction false} LongField(f: seq<Byte>, base: nat, fields: seq<Field>, i: nat, at: nat)
    requires Sits(f, base, fields) && i < |fields| && fields[i].U64? && at == base + Offset(fields, i)
    ensures at + 8 <= |f| && Long(f, at) == fields[i].n
  {
    hide *;
    ReadU64Field(f, base, fields, i, at);
    LongIs(f, at);
  }

  /** Header and configuration of a built file. */
  lemma {:induction false} FileHeaderMap(c: Config, ts: seq<Tensor>, meta: bool, file: seq<Byte>)
    requires Build(c, ts, meta) == Built(file)
    ensures HeaderMapped(file, |ts|, BytesUpTo(ts, |ts|), meta) && ConfigMapped(file, c)
  {
    assert HEADER_SIZE == 80;
    hide *;
    BuiltMeans(c, ts, meta);
    SectionsTile(c, ts, meta);
    FileUnfolds(c, ts, meta);
    HeldSections(file, c, ts, meta);
    HeaderWords(file, ts, meta);
    ConfigWords(file, c);
    BytesUpToIs(ts, |ts|);
  }

  // ----------------------------------------------------------------- tensors

  /** Dimension k, one where there is none. */
  function Dimension(shape: Shape, k: nat): int {
    if k < |shape| then shape[k] else 1
  }

  /** The 128 bytes at p describe a tensor whose payload starts `offset` bytes into the data section: name padded with
      NULs, type, dimensions, offset, size, a word that is always zero, and the flags. */
  ghost predicate DescriptorMapped(f: seq<Byte>, p: nat, t: Tensor, offset: int) {
    && p + 128 <= |f| && NamedAt(f, p, t.name)
    && Word(f, p + 64) == t.dtype && Word(f, p + 68) == |t.shape|
    && Long(f, p + 72) == Dimension(t.shape, 0) && Long(f, p + 80) == Dimension(t.shape, 1)
    && Long(f, p + 88) == Dimension(t.shape, 2) && Long(f, p + 96) == Dimension(t.shape, 3)
    && Long(f, p + 104) == offset && Long(f, p + 112) == |t.data|
    && Word(f, p + 120) == 0 && Word(f, p + 124) == t.flags
  }

  ghost predicate NamedAt(f: seq<Byte>, p: nat, name: string) {
    && |name| < 64 && p + 64 <= |f|
    && forall k :: 0 <= k < 64 ==> f[p + k] == if k < |name| then name[k] as int else 0
  }

  ghost predicate PayloadMapped(f: seq<Byte>, p: int, data: seq<Byte>) {
    0 <= p && p + |data| <= |f| && forall k :: 0 <= k < |data| ==> f[p + k] == data[k]
  }

  lemma {:induction false} NameMapped(f: seq<Byte>, p: nat, name: string)
    requires NameFits(name) && p + 64 <= |f| && Slice(f, p, 64) == NameField(name)
    ensures NamedAt(f, p, name)
  {
    forall k | 0 <= k < 64
      ensures f[p + k] == if k < |name| then name[k] as int else 0
    {
      SliceAt(f, p, 64, k);
      NameFieldAt(name, k);
    }
  }

  lemma {:induction false} NameFieldAt(name: string, k: nat)
    requires NameFits(name) && k < 64
    ensures NameField(name)[k] == if k < |name| then name[k] as int else 0
  {
  }

  lemma {:induction false} DimensionFields(t: Tensor, offset: nat)
    requires NameFits(t.name)
    ensures var f := DescriptorFields(t, offset);
            && |f| == 11 && f[3] == U64(Dimension(t.shape, 0)) && f[4] == U64(Dimension(t.shape, 1))
            && f[5] == U64(Dimension(t.shape, 2)) && f[6] == U64(Dimension(t.shape, 3))
  {
    hide NameField;
    hide Padded;
    hide Dimension;
    PaddedDimensions(t.shape);
  }

  lemma {:induction false} DescriptorNumbers(f: seq<Byte>, p: nat, t: Tensor, offset: nat)
    requires NameFits(t.name) && Sits(f, p, DescriptorFields(t, offset))
    ensures p + 128 <= |f|
    ensures Word(f, p + 64) == t.dtype && Word(f, p + 68) == |t.shape|
    ensures Long(f, p + 72) == Dimension(t.shape, 0) && Long(f, p + 80) == Dimension(t.shape, 1)
    ensures Long(f, p + 88) == Dimension(t.shape, 2) && Long(f, p + 96) == Dimension(t.shape, 3)
    ensures Long(f, p + 104) == offset && Long(f, p + 112) == |t.data|
    ensures Word(f, p + 120) == 0 && Word(f, p + 124) == t.flags
  {
    assert DESC_SIZE == 128;
    hide *;
    var fields := DescriptorFields(t, offset);
    DescriptorBytes(f, p, t, offset);
    DescriptorOffsets(t, offset);
    DimensionFields(t, offset);
    WordIs(f, p + 64);
    WordIs(f, p + 68);
    LongField(f, p, fields, 3, p + 72);
    LongField(f, p, fields, 4, p + 80);
    LongField(f, p, fields, 5, p + 88);
    LongField(f, p, fields, 6, p + 96);
    LongIs(f, p + 104);
    LongIs(f, p + 112);
    WordIs(f, p + 120);
    WordIs(f, p + 124);
  }

  lemma {:induction false} DescriptorWords(f: seq<Byte>, p: nat, t: Tensor, offset: nat)
    requires NameFits(t.name) && Sits(f, p, DescriptorFields(t, offset))
    ensures DescriptorMapped(f, p, t, offset)
  {
    hide Word;
    hide Long;
    hide Dimension;
    hide Sits;
    hide Slice;
    hide DescriptorFields;
    hide NameField;
    hide NameFits;
    hide ReadU32;
    hide ReadU64;
    hide NamedAt;
    DescriptorNumbers(f, p, t, offset);
    DescriptorBytes(f, p, t, offset);
    NameMapped(f, p, t.name);
  }

  lemma {:induction false} PayloadBytes(f: seq<Byte>, p: nat, data: seq<Byte>)
    requires p + |data| <= |f| && Slice(f, p, |data|) == data
    ensures PayloadMapped(f, p, data)
  {
    forall k | 0 <= k < |data|
      ensures f[p + k] == data[k]
    {
      SliceAt(f, p, |data|, k);
    }
  }

  lemma {:induction false} Positions(ts: seq<Tensor>, i: nat)
    ensures DescriptorPosition(i) == 116 + 128 * i && DataBase(ts) == 116 + 128 * |ts|
    ensures RecordPosition(ts, i) == 116 + 128 * |ts| + DataOffset(ts, |ts|) + 120 * i
  {
    hide DataOffset;
  }

  /** Descriptor and payload of tensor i. */
  lemma {:induction false} TensorMap(c: Config, ts: seq<Tensor>, meta: bool, file: seq<Byte>, i: nat)
    requires Build(c, ts, meta) == Built(file) && i < |ts|
    ensures DescriptorMapped(file, 116 + 128 * i, ts[i], BytesUpTo(ts, i))
    ensures PayloadMapped(file, 116 + 128 * |ts| + BytesUpTo(ts, i), ts[i].data)
  {
    hide *;
    BuiltMeans(c, ts, meta);
    FileLaidOut(c, ts, meta);
    LaidOutMeans(file, ts);
    DescriptorUnfolds(ts, i);
    DescriptorHeld(file, ts, i);
    SitsIf(file, DescriptorPosition(i), DescriptorFields(ts[i], DataOffset(ts, i)));
    DescriptorWords(file, DescriptorPosition(i), ts[i], DataOffset(ts, i));
    PayloadSits(file, ts, i);
    PayloadBytes(file, DataBase(ts) + DataOffset(ts, i), ts[i].data);
    BytesUpToIs(ts, i);
    Positions(ts, i);
  }

  // ------------------------------------------------------------ shard metadata

  /** The 120 bytes at p name tensor i, its tile twice, its offset and shape, its type, and whether it is quantised; the
      rest is zero. */
  ghost predicate RecordMapped(f: seq<Byte>, p: int, i: nat, t: Tensor, tile: nat, offset: int) {
    && 0 <= p && p + 120 <= |f|
    && Word(f, p) == i && Word(f, p + 4) == tile && Long(f, p + 8) == offset
    && Long(f, p + 16) == Dimension(t.shape, 0) && Long(f, p + 24) == Dimension(t.shape, 1)
    && Long(f, p + 32) == Dimension(t.shape, 2) && Long(f, p + 40) == Dimension(t.shape, 3)
    && Word(f, p + 48) == t.dtype && Word(f, p + 52) == (if t.dtype == 2 || t.dtype == 3 then 1 else 0)
    && Word(f, p + 56) == tile
    && (forall k :: 0 <= k < 13 ==> Word(f, p + 60 + 4 * k) == 0) && Long(f, p + 112) == 0
  }

  lemma {:induction false} PaddedDimensions(shape: Shape)
    ensures forall k :: 0 <= k < 4 ==> Padded(shape)[k] == Dimension(shape, k)
  {
  }

  lemma {:induction false} RecordShape(i: nat, t: Tensor, tile: nat, offset: nat)
    ensures var f := ShardFields(i, t, tile, offset);
            && |f| == 24
            && f[3] == U64(Dimension(t.shape, 0)) && f[4] == U64(Dimension(t.shape, 1))
            && f[5] == U64(Dimension(t.shape, 2)) && f[6] == U64(Dimension(t.shape, 3))
  {
    var f, s := ShardFields(i, t, tile, offset), Padded(t.shape);
    assert f[3] == U64(s[0]) && f[4] == U64(s[1]) && f[5] == U64(s[2]) && f[6] == U64(s[3]) by {
      hide Padded;
    }
    hide ShardFields;
    hide Padded;
    hide Dimension;
    PaddedDimensions(t.shape);
  }

  lemma {:induction false} RecordScheme(i: nat, t: Tensor, tile: nat, offset: nat)
    ensures var f := ShardFields(i, t, tile, offset);
            |f| == 24 && f[8] == U32(if t.dtype == 2 || t.dtype == 3 then 1 else 0)
  {
    hide Padded;
  }

  lemma {:induction false} RecordZeros(i: nat, t: Tensor, tile: nat, offset: nat)
    ensures var f := ShardFields(i, t, tile, offset);
            |f| == 24 && (forall k :: 10 <= k < 23 ==> f[k] == U32(0)) && f[23] == U64(0)
  {
    hide Padded;
  }

  lemma {:induction false} RecordOffset(i: nat, t: Tensor, tile: nat, offset: nat, k: nat)
    requires k < 24
    ensures Offset(ShardFields(i, t, tile, offset), k)
         == if k < 2 then 4 * k else if k < 8 then 8 * k - 8 else 4 * k + 20
  {
    var f := ShardFields(i, t, tile, offset);
    ShardOffsets(i, t, tile, offset);
    ShardWidths(i, t, tile, offset);
    hide Offset;
    hide ShardFields;
    if k < 2 {
      OffsetRun(f, 0, k, 4);
    } else if k < 8 {
      OffsetRun(f, 2, k - 2, 8);
    } else {
      OffsetRun(f, 7, k - 7, 4);
    }
  }

  lemma {:induction false} RecordNumbers(f: seq<Byte>, p: nat, i: nat, t: Tensor, tile: nat, offset: nat)
    requires Sits(f, p, ShardFields(i, t, tile, offset))
    ensures p + 120 <= |f|
    ensures Word(f, p) == i && Word(f, p + 4) == tile && Long(f, p + 8) == offset
    ensures Long(f, p + 16) == Dimension(t.shape, 0) && Long(f, p + 24) == Dimension(t.shape, 1)
    ensures Long(f, p + 32) == Dimension(t.shape, 2) && Long(f, p + 40) == Dimension(t.shape, 3)
    ensures Word(f, p + 48) == t.dtype && Word(f, p + 52) == (if t.dtype == 2 || t.dtype == 3 then 1 else 0)
    ensures Word(f, p + 56) == tile
  {
    assert SHARD_RECORD_SIZE == 120;
    hide *;
    var fields := ShardFields(i, t, tile, offset);
    RecordReads(f, p, i, t, tile, offset);
    RecordShape(i, t, tile, offset);
    RecordScheme(i, t, tile, offset);
    RecordOffset(i, t, tile, offset, 3);
    RecordOffset(i, t, tile, offset, 4);
    RecordOffset(i, t, tile, offset, 5);
    RecordOffset(i, t, tile, offset, 6);
    RecordOffset(i, t, tile, offset, 8);
    WordIs(f, p);
    WordIs(f, p + 4);
    LongIs(f, p + 8);
    LongField(f, p, fields, 3, p + 16);
    LongField(f, p, fields, 4, p + 24);
    LongField(f, p, fields, 5, p + 32);
    LongField(f, p, fields, 6, p + 40);
    WordIs(f, p + 48);
    WordField(f, p, fields, 8, p + 52);
    WordIs(f, p + 56);
  }

  lemma {:induction false} RecordRest(f: seq<Byte>, p: nat, i: nat, t: Tensor, tile: nat, offset: nat, k: nat)
    requires Sits(f, p, ShardFields(i, t, tile, offset)) && k < 13
    ensures p + 120 <= |f| && Word(f, p + 60 + 4 * k) == 0 && Long(f, p + 112) == 0
  {
    hide *;
    var fields := ShardFields(i, t, tile, offset);
    RecordZeros(i, t, tile, offset);
    RecordOffset(i, t, tile, offset, 10 + k);
    RecordOffset(i, t, tile, offset, 23);
    WordField(f, p, fields, 10 + k, p + 60 + 4 * k);
    LongField(f, p, fields, 23, p + 112);
  }

  lemma {:induction false} RecordWords(f: seq<Byte>, p: nat, i: nat, t: Tensor, tile: nat, offset: nat)
    requires Sits(f, p, ShardFields(i, t, tile, offset))
    ensures RecordMapped(f, p, i, t, tile, offset)
  {
    hide Word;
    hide Long;
    hide Dimension;
    hide Sits;
    hide ShardFields;
    RecordNumbers(f, p, i, t, tile, offset);
    forall k | 0 <= k < 13
      ensures Word(f, p + 60 + 4 * k) == 0
    {
      RecordRest(f, p, i, t, tile, offset, k);
    }
    RecordRest(f, p, i, t, tile, offset, 0);
  }

  /** Record i of the metadata section. */
  lemma {:induction false} ShardMap(c: Config, ts: seq<Tensor>, file: seq<Byte>, i: nat)
    requires Build(c, ts, true) == Built(file) && i < |ts|
    ensures RecordMapped(file, 116 + 128 * |ts| + BytesUpTo(ts, |ts|) + 120 * i, i, ts[i], ScheduledTile(c, i), BytesUpTo(ts, i))
  {
    hide *;
    BuiltMeans(c, ts, true);
    NamesFromPlan(c, ts);
    RecordSits(c, ts, i);
    RecordTile(c, ts, i);
    RecordWords(file, RecordPosition(ts, i), i, ts[i], ScheduledTile(c, i), DataOffset(ts, i));
    BytesUpToIs(ts, i);
    BytesUpToIs(ts, |ts|);
    Positions(ts, i);
  }

  // -------------------------------------------------------------- acceptance

  predicate Small(x: int) {
    0 <= x < 0x1_0000_0000
  }

  predicate Large(x: int) {
    0 <= x < 0x1_0000_0000_0000_0000
  }

  /** What the builder asks of the tensor at a place of the plan: its name, and the shape and size its type calls for. */
  predicate Agrees(e: PlanEntry, t: Tensor) {
    t.name == e.name
    && match t.dtype
       case 2 => |e.shape| == 2 && e.name != "tok_embeddings.weight" && t.shape == [e.shape[1], e.shape[0]]
                 && |t.data| == e.shape[1] * e.shape[0] + e.shape[1] * 4
       case 3 => |e.shape| == 2 && e.name != "tok_embeddings.weight" && e.shape[0] >= 32 && e.shape[0] % 32 == 0
                 && t.shape == [e.shape[1], e.shape[0]]
                 && |t.data| == e.shape[1] * e.shape[0] / 2
                                + e.shape[1] * (e.shape[0] / (if t.flags % 256 == 0 then 32 else t.flags % 256)) * 4
       case _ => t.shape == e.shape && |t.data| == Product(t.shape) * 4
  }

  /** A name that fits its field, and numbers that fit theirs. */
  ghost predicate Storable(t: Tensor, offset: int) {
    && |t.name| < 64 && (forall k :: 0 <= k < |t.name| ==> t.name[k] < 128 as char)
    && Small(t.dtype) && Small(|t.shape|) && Small(t.flags) && Large(offset) && Large(|t.data|)
    && Large(Dimension(t.shape, 0)) && Large(Dimension(t.shape, 1)) && Large(Dimension(t.shape, 2)) && Large(Dimension(t.shape, 3))
  }

  lemma {:induction false} AgreesMeans(e: PlanEntry, t: Tensor)
    ensures Matches(e, t) <==> Agrees(e, t)
  {
    hide Product;
  }

  lemma {:induction false} StorableMeans(t: Tensor, offset: nat)
    ensures NameFits(t.name) && AllFit(DescriptorFields(t, offset)) <==> Storable(t, offset)
  {
    if NameFits(t.name) {
      DescriptorFieldsAre(t, offset);
      DimensionFields(t, offset);
      hide DescriptorFields;
      hide Dimension;
      hide NameField;
      var f := DescriptorFields(t, offset);
      if AllFit(f) {
        assert f[1].Fits() && f[2].Fits() && f[3].Fits() && f[4].Fits() && f[5].Fits() && f[6].Fits() && f[7].Fits() && f[8].Fits() && f[10].Fits();
      }
    }
  }

  ghost predicate ConfigStorable(c: Config) {
    && Small(c.vocabSize) && Small(c.nLayers) && Small(c.nHeads) && Small(c.dModel) && Small(c.dFf)
    && Small(c.maxSeqLen) && Small(c.ropeDim) && Small(c.nTiles) && Small(c.shardCount)
  }

  lemma {:induction false} ConfigFits(c: Config)
    ensures AllFit(ConfigFields(c)) <==> ConfigStorable(c)
  {
    var f := ConfigFields(c);
    assert |f| == 9 && f[0] == U32(c.vocabSize) && f[1] == U32(c.nLayers) && f[2] == U32(c.nHeads) && f[3] == U32(c.dModel);
    assert f[4] == U32(c.dFf) && f[5] == U32(c.maxSeqLen) && f[6] == U32(c.ropeDim) && f[7] == U32(c.nTiles) && f[8] == U32(c.shardCount);
    hide ConfigFields;
    if AllFit(f) {
      assert f[0].Fits() && f[1].Fits() && f[2].Fits() && f[3].Fits() && f[4].Fits() && f[5].Fits() && f[6].Fits() && f[7].Fits() && f[8].Fits();
    }
  }

  /** The header's counts and offsets. */
  ghost predicate SizesStorable(ts: seq<Tensor>, meta: bool) {
    var end := 116 + 128 * |ts| + BytesUpTo(ts, |ts|);
    && Large(|ts|) && Large(116 + 128 * |ts|) && Large(BytesUpTo(ts, |ts|))
    && (meta ==> Large(end) && Large(120 * |ts|))
  }

  lemma {:induction false} HeaderFits(ts: seq<Tensor>, meta: bool)
    ensures AllFit(FileHeader(ts, meta)) <==> SizesStorable(ts, meta)
  {
    BytesUpToIs(ts, |ts|);
    var f, size := FileHeader(ts, meta), DataOffset(ts, |ts|);
    assert |f| == 11 && f[0] == Raw(Magic()) && f[1] == U32(1) && f[2] == U32(80) && f[3] == U64(80) && f[4] == U64(36) && f[5] == U64(116);
    assert f[6] == U64(|ts|) && f[7] == U64(116 + 128 * |ts|) && f[8] == U64(size);
    assert f[9] == U64(if meta then 116 + 128 * |ts| + size else 0) && f[10] == U64(if meta then 120 * |ts| else 0);
    hide FileHeader;
    hide DataOffset;
    hide BytesUpTo;
    if AllFit(f) {
      assert f[6].Fits() && f[7].Fits() && f[8].Fits() && f[9].Fits() && f[10].Fits();
    }
  }

  ghost predicate AllAgree(plan: seq<PlanEntry>, ts: seq<Tensor>) {
    |plan| == |ts| && forall i :: 0 <= i < |ts| ==> Agrees(plan[i], ts[i])
  }

  ghost predicate AllStorable(ts: seq<Tensor>) {
    forall i :: 0 <= i < |ts| ==> Storable(ts[i], BytesUpTo(ts, i))
  }

  lemma {:induction false} AllAgreeMeans(plan: seq<PlanEntry>, ts: seq<Tensor>)
    requires |plan| == |ts|
    ensures AllMatch(plan, ts) <==> AllAgree(plan, ts)
  {
    forall i | 0 <= i < |ts|
      ensures Matches(plan[i], ts[i]) <==> Agrees(plan[i], ts[i])
    {
      AgreesMeans(plan[i], ts[i]);
    }
    hide Matches;
    hide Agrees;
  }

  lemma {:induction false} AllStorableMeans(ts: seq<Tensor>)
    ensures NamesFit(ts) && DescriptorsFit(ts) <==> AllStorable(ts)
  {
    forall i | 0 <= i < |ts|
      ensures DescriptorFits(ts, i) <==> Storable(ts[i], BytesUpTo(ts, i))
      ensures DescriptorFits(ts, i) ==> NameFits(ts[i].name)
    {
      BytesUpToIs(ts, i);
      StorableMeans(ts[i], DataOffset(ts, i));
      DescriptorFitsMeans(ts, i);
    }
    hide Storable;
    hide DescriptorFits;
    hide NameFits;
    hide BytesUpTo;
  }

  lemma {:induction false} DescriptorFitsMeans(ts: seq<Tensor>, i: nat)
    requires i < |ts|
    ensures DescriptorFits(ts, i) <==> NameFits(ts[i].name) && AllFit(DescriptorFields(ts[i], DataOffset(ts, i)))
  {
    hide NameFits;
    hide DescriptorFields;
    hide AllFit;
    hide DataOffset;
  }

  lemma {:induction false} BuildUnfolds(c: Config, ts: seq<Tensor>)
    ensures Build(c, ts, false).Built? <==>
      && |ts| == 3 + c.nLayers * 9 && |NamePlan(c)| == |ts| && AllMatch(NamePlan(c), ts)
      && NamesFit(ts) && DescriptorsFit(ts) && AllFit(FileHeader(ts, false)) && AllFit(ConfigFields(c))
  {
    hide NamePlan;
    hide AllMatch;
    hide NamesFit;
    hide DescriptorsFit;
    hide FileHeader;
    hide ConfigFields;
    hide AllFit;
    hide File;
  }

  /** Without metadata: a file is built exactly from as many tensors as the plan has, each agreeing with its entry and
      fitting its descriptor, under a configuration and sizes that fit. */
  lemma {:induction false} BuiltIff(c: Config, ts: seq<Tensor>)
    ensures Build(c, ts, false).Built? <==>
      |ts| == 3 + 9 * c.nLayers && AllAgree(NamePlan(c), ts) && AllStorable(ts) && ConfigStorable(c) && SizesStorable(ts, false)
  {
    assert AllAgree(NamePlan(c), ts) ==> |NamePlan(c)| == |ts| by {
      hide NamePlan;
    }
    hide *;
    BuildUnfolds(c, ts);
    ConfigFits(c);
    HeaderFits(ts, false);
    AllStorableMeans(ts);
    if |NamePlan(c)| == |ts| {
      AllAgreeMeans(NamePlan(c), ts);
    }
  }
}
