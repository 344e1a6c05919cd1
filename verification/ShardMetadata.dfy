module ShardMetadata {
  // The optional shard metadata of a built file agrees with its descriptors and with the schedule.

  import opened Common
  import opened Bytes
  import opened Records
  import opened Decimal
  import opened TensorPlan
  import opened Att1Writer
  import opened Att1RoundTrip
  import Schedule

  /** Where record i of the metadata section starts. */
  function RecordPosition(ts: seq<Tensor>, i: nat): nat {
    DataBase(ts) + DataOffset(ts, |ts|) + i * SHARD_RECORD_SIZE
  }

  lemma {:induction false} RecordUnfolds(c: Config, ts: seq<Tensor>, i: nat)
    requires ShardsFit(c, ts) && i < |ts|
    ensures TileFound(c, ts[i])
    ensures ShardFits(c, ts, i) && AllFit(ShardRecordFields(c, ts, i))
    ensures ShardRecord(c, ts, i) == Pack(ShardRecordFields(c, ts, i))
  {
    hide Pack;
    hide Offset;
    hide AllFit;
    hide ShardRecordFields;
  }

  lemma {:induction false} SectionHeld(c: Config, ts: seq<Tensor>)
    requires FileFits(c, ts, true)
    ensures ShardsFit(c, ts)
    ensures Holds(File(c, ts, true), RecordPosition(ts, 0), Shards(c, ts, |ts|))
  {
    SectionsTile(c, ts, true);
    ShardSectionIs(c, ts, true);
    hide File;
    hide FileFits;
    hide Slice;
    hide Shards;
    hide ShardsFit;
    hide DataOffset;
  }

  lemma {:induction false} RecordHeld(c: Config, ts: seq<Tensor>, i: nat)
    requires FileFits(c, ts, true) && i < |ts|
    ensures ShardFits(c, ts, i)
    ensures Holds(File(c, ts, true), RecordPosition(ts, i), ShardRecord(c, ts, i))
  {
    hide Slice;
    hide Holds;
    hide File;
    hide FileFits;
    hide ShardFits;
    hide ShardRecord;
    hide Shards;
    hide DataOffset;
    SectionHeld(c, ts);
    ShardAt(c, ts, |ts|, i);
    HoldsPart(File(c, ts, true), RecordPosition(ts, 0), Shards(c, ts, |ts|), i * SHARD_RECORD_SIZE, SHARD_RECORD_SIZE);
  }

  lemma {:induction false} RecordSits(c: Config, ts: seq<Tensor>, i: nat)
    requires FileFits(c, ts, true) && i < |ts|
    ensures TileFound(c, ts[i])
    ensures Sits(File(c, ts, true), RecordPosition(ts, i), ShardRecordFields(c, ts, i))
  {
    hide *;
    SectionHeld(c, ts);
    RecordUnfolds(c, ts, i);
    RecordHeld(c, ts, i);
    SitsIf(File(c, ts, true), RecordPosition(ts, i), ShardRecordFields(c, ts, i));
  }

  /** The record fields the metadata promises, read where the format puts them. */
  lemma {:induction false} RecordFields(i: nat, t: Tensor, tile: nat, offset: nat)
    ensures var f := ShardFields(i, t, tile, offset);
            && |f| == 24 && f[0] == U32(i) && f[1] == U32(tile) && f[2] == U64(offset) && f[7] == U32(t.dtype) && f[9] == U32(tile)
  {
  }

  lemma {:induction false} RecordReads(data: seq<Byte>, at: nat, i: nat, t: Tensor, tile: nat, offset: nat)
    requires Sits(data, at, ShardFields(i, t, tile, offset))
    ensures at + SHARD_RECORD_SIZE <= |data|
    ensures ReadU32(data, at) == i && ReadU32(data, at + 4) == tile && ReadU64(data, at + 8) == offset
    ensures ReadU32(data, at + 48) == t.dtype && ReadU32(data, at + 56) == tile
  {
    hide *;
    var f := ShardFields(i, t, tile, offset);
    ShardOffsets(i, t, tile, offset);
    RecordFields(i, t, tile, offset);
    SitsMeans(data, at, f, 0);
    ReadU32Field(data, at, f, 0, at);
    ReadU32Field(data, at, f, 1, at + 4);
    ReadU64Field(data, at, f, 2, at + 8);
    ReadU32Field(data, at, f, 7, at + 48);
    ReadU32Field(data, at, f, 9, at + 56);
  }

  /** The header's shard_meta_offset and shard_meta_size. */
  lemma {:induction false} HeaderNamesSection(data: seq<Byte>, ts: seq<Tensor>)
    requires Sits(data, 0, FileHeader(ts, true))
    ensures |data| >= HEADER_SIZE
    ensures ReadU64(data, 64) == RecordPosition(ts, 0) && ReadU64(data, 72) == |ts| * SHARD_RECORD_SIZE
  {
    var f := FileHeader(ts, true);
    HeaderOffsets(ts, true);
    SitsMeans(data, 0, f, 0);
    assert |f| == 11 && f[9] == U64(DataBase(ts) + DataOffset(ts, |ts|)) && f[10] == U64(|ts| * SHARD_RECORD_SIZE);
    hide FileHeader;
    hide Sits;
    hide Offset;
    hide ReadU64;
    ReadU64Field(data, 0, f, 9, 64);
    ReadU64Field(data, 0, f, 10, 72);
  }

  /** The tile a planned tensor belongs on: its layer's tile, or tile 0 outside the layers. */
  function ScheduledTile(c: Config, i: nat): nat
  {
    if c.nTiles >= 1 && 1 <= i <= 9 * LayerCount(c) then
      Schedule.ScheduleIsBalanced(LayerCount(c), c.nTiles);
      Schedule.Assignment(LayerCount(c), c.nTiles)[(i - 1) / 9]
    else 0
  }

  lemma {:induction false} TileOfPlanned(c: Config, i: nat)
    requires i < |NamePlan(c)|
    ensures TileKnown(NamePlan(c)[i].name, c.nLayers, TileSchedule(c)) <==> c.nTiles >= 1 || !(1 <= i <= 9 * LayerCount(c))
    ensures TileKnown(NamePlan(c)[i].name, c.nLayers, TileSchedule(c)) ==>
              TileFor(NamePlan(c)[i].name, c.nLayers, TileSchedule(c)) == ScheduledTile(c, i)
  {
    hide Schedule.Assignment;
    hide LayerEntries;
    hide EntriesUpTo;
    hide TileFor;
    hide TileKnown;
    if 1 <= i <= 9 * LayerCount(c) {
      var layer, k := (i - 1) / 9, (i - 1) % 9;
      EntryOfLayer(c, LayerCount(c), i - 1);
      LayerEntryName(c, layer, k);
      TileOfLayerName(layer, Suffix(k), c.nLayers, TileSchedule(c));
      hide Suffix;
      hide LayerName;
    } else {
      OuterTile(c.nLayers, TileSchedule(c));
    }
  }

  lemma {:induction false} NotALayer(name: string)
    requires |name| > 0 && name[0] != 'l'
    ensures LayerOf(name) == None
  {
  }

  lemma {:induction false} OuterTile(nLayers: int, a: seq<nat>)
    ensures TileKnown("tok_embeddings.weight", nLayers, a)
    ensures TileKnown("output_norm.weight", nLayers, a) && TileKnown("output.weight", nLayers, a)
    ensures TileFor("tok_embeddings.weight", nLayers, a) == 0
    ensures TileFor("output_norm.weight", nLayers, a) == 0 && TileFor("output.weight", nLayers, a) == 0
  {
    hide LayerOf;
    NotALayer("tok_embeddings.weight");
    NotALayer("output_norm.weight");
    NotALayer("output.weight");
  }

  /** Record i of the metadata names tensor i, repeats the data offset of descriptor i, and carries the
      tile scheduled for its layer, twice; the header locates the section, which ends the file. */
  ghost predicate RecordAgrees(file: seq<Byte>, c: Config, ts: seq<Tensor>, i: nat)
  {
    var rec, desc := RecordPosition(ts, i), DescriptorPosition(i);
    && rec + SHARD_RECORD_SIZE <= |file| && desc + DESC_SIZE <= |file|
    && ReadU32(file, rec) == i
    && ReadU64(file, rec + 8) == ReadU64(file, desc + 104)
    && ReadU32(file, rec + 48) == ReadU32(file, desc + 64)
    && ReadU32(file, rec + 4) == ReadU32(file, rec + 56) == ScheduledTile(c, i)
  }

  lemma {:induction false} DescriptorReads(c: Config, ts: seq<Tensor>, i: nat)
    requires FileFits(c, ts, true) && i < |ts|
    ensures DescriptorPosition(i) + DESC_SIZE <= |File(c, ts, true)|
    ensures ReadU64(File(c, ts, true), DescriptorPosition(i) + 104) == DataOffset(ts, i)
    ensures ReadU32(File(c, ts, true), DescriptorPosition(i) + 64) == ts[i].dtype
  {
    hide *;
    var file := File(c, ts, true);
    FileLaidOut(c, ts, true);
    LaidOutMeans(file, ts);
    DescriptorUnfolds(ts, i);
    DescriptorHeld(file, ts, i);
    SitsIf(file, DescriptorPosition(i), DescriptorFields(ts[i], DataOffset(ts, i)));
    DescriptorBytes(file, DescriptorPosition(i), ts[i], DataOffset(ts, i));
  }

  lemma {:induction false} RecordTile(c: Config, ts: seq<Tensor>, i: nat)
    requires i < |ts| == |NamePlan(c)| && ts[i].name == NamePlan(c)[i].name && TileFound(c, ts[i])
    ensures ShardRecordFields(c, ts, i) == ShardFields(i, ts[i], ScheduledTile(c, i), DataOffset(ts, i))
  {
    hide ShardFields;
    hide NamePlan;
    hide ScheduledTile;
    TileOfPlanned(c, i);
  }

  lemma {:induction false} RecordsAgree(c: Config, ts: seq<Tensor>, i: nat)
    requires FileFits(c, ts, true) && i < |ts|
    requires |ts| == |NamePlan(c)| && ts[i].name == NamePlan(c)[i].name
    ensures RecordAgrees(File(c, ts, true), c, ts, i)
  {
    hide File;
    hide FileFits;
    hide NamePlan;
    hide ReadU32;
    hide ReadU64;
    hide Sits;
    hide ShardFields;
    hide ShardRecordFields;
    hide ScheduledTile;
    hide RecordPosition;
    hide DescriptorPosition;
    RecordSits(c, ts, i);
    RecordTile(c, ts, i);
    RecordReads(File(c, ts, true), RecordPosition(ts, i), i, ts[i], ScheduledTile(c, i), DataOffset(ts, i));
    DescriptorReads(c, ts, i);
  }

  lemma {:induction false} NamesFromPlan(c: Config, ts: seq<Tensor>)
    requires |ts| == |NamePlan(c)| && AllMatch(NamePlan(c), ts)
    ensures forall i :: 0 <= i < |ts| ==> ts[i].name == NamePlan(c)[i].name
  {
    hide NamePlan;
    forall i | 0 <= i < |ts|
      ensures ts[i].name == NamePlan(c)[i].name
    {
      assert Matches(NamePlan(c)[i], ts[i]);
    }
  }

  /** Main result on the metadata of a built file. */
  lemma {:induction false} ShardMetadataAgrees(c: Config, ts: seq<Tensor>, file: seq<Byte>)
    requires Build(c, ts, true) == Built(file)
    ensures |file| == RecordPosition(ts, |ts|)
    ensures ReadU64(file, 64) == RecordPosition(ts, 0) && ReadU64(file, 72) == |ts| * SHARD_RECORD_SIZE
    ensures forall i :: 0 <= i < |ts| ==> RecordAgrees(file, c, ts, i)
  {
    BuiltMeans(c, ts, true);
    NamesFromPlan(c, ts);
    SectionsTile(c, ts, true);
    FileUnfolds(c, ts, true);
    hide Build;
    hide File;
    hide FileFits;
    hide NamePlan;
    hide AllMatch;
    hide Slice;
    hide ReadU64;
    hide RecordAgrees;
    HeldSections(file, c, ts, true);
    HeaderNamesSection(file, ts);
    forall i | 0 <= i < |ts|
      ensures RecordAgrees(file, c, ts, i)
    {
      RecordsAgree(c, ts, i);
    }
  }

  // ------------------------------------------------------------ no tiles

  /** A tensor whose descriptor fits has a fitting record on tile 0, at least at the head of the list. */
  lemma {:induction false} FirstRecordFits(t: Tensor)
    requires NameFits(t.name) && AllFit(DescriptorFields(t, 0))
    ensures AllFit(ShardFields(0, t, 0, 0))
  {
    var d, f, p := DescriptorFields(t, 0), ShardFields(0, t, 0, 0), Padded(t.shape);
    assert d[1] == U32(t.dtype) && d[3] == U64(p[0]) && d[4] == U64(p[1]) && d[5] == U64(p[2]) && d[6] == U64(p[3]);
    assert d[1].Fits() && d[3].Fits() && d[4].Fits() && d[5].Fits() && d[6].Fits();
    hide DescriptorFields;
    hide Padded;
  }

  lemma {:induction false} PlannedTile(c: Config, ts: seq<Tensor>, i: nat)
    requires |ts| == |NamePlan(c)| && i < |ts| && ts[i].name == NamePlan(c)[i].name
    ensures TileFound(c, ts[i]) <==> c.nTiles >= 1 || !(1 <= i <= 9 * LayerCount(c))
  {
    TileOfPlanned(c, i);
    hide NamePlan;
    hide TileKnown;
    hide TileSchedule;
  }

  lemma {:induction false} NeverWithoutTile(c: Config, ts: seq<Tensor>, n: nat)
    requires n <= |ts| && forall i :: 0 <= i < |ts| ==> TileFound(c, ts[i])
    ensures ShardOutcome(c, ts, n) != NoTile
  {
    hide ShardFits;
    hide TileFound;
    if n > 0 {
      NeverWithoutTile(c, ts, n - 1);
    }
  }

  lemma {:induction false} SecondHasNoTile(c: Config, ts: seq<Tensor>)
    requires |ts| >= 2 && TileFound(c, ts[0]) && TileFor(ts[0].name, c.nLayers, TileSchedule(c)) == 0 && !TileFound(c, ts[1])
    requires DescriptorFits(ts, 0)
    ensures ShardOutcome(c, ts, |ts|) == NoTile
  {
    FirstRecordFits(ts[0]);
    assert ShardFits(c, ts, 0);
    hide ShardFits;
    hide TileFound;
    assert ShardOutcome(c, ts, 0) == Complete;
    assert ShardOutcome(c, ts, 1) == Complete;
    assert ShardOutcome(c, ts, 2) == NoTile;
    OutcomeStays(c, ts, 2, |ts|);
  }

  /** Without a tile no layer can be placed: a list that passes all checks and fits its descriptors fails on
      the schedule lookup exactly when metadata is asked for, there is no tile and there is a layer. */
  lemma {:induction false} UnscheduledIff(c: Config, ts: seq<Tensor>, meta: bool)
    requires |ts| == 3 + c.nLayers * 9 && AllMatch(NamePlan(c), ts) && NamesFit(ts) && DescriptorsFit(ts)
    ensures Build(c, ts, meta) == Unscheduled <==> meta && c.nTiles < 1 && c.nLayers > 0
  {
    NamesFromPlan(c, ts);
    forall i | 0 <= i < |ts|
      ensures TileFound(c, ts[i]) <==> c.nTiles >= 1 || !(1 <= i <= 9 * LayerCount(c))
    {
      PlannedTile(c, ts, i);
    }
    TileOfPlanned(c, 0);
    assert DescriptorFits(ts, 0);
    hide NamePlan;
    hide AllMatch;
    hide NamesFit;
    hide DescriptorsFit;
    hide DescriptorFits;
    hide TileSchedule;
    hide TileKnown;
    hide TileFor;
    hide FileFits;
    hide File;
    if c.nTiles >= 1 || c.nLayers <= 0 {
      NeverWithoutTile(c, ts, |ts|);
    } else {
      SecondHasNoTile(c, ts);
    }
  }
}
