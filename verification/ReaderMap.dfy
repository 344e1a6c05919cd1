module ReaderMap {
  // Which files the .att1 reader takes, and what it returns for them, byte by byte.

  import opened Common
  import opened Bytes
  import opened Records
  import opened FileMap
  import Reader = Att1Reader

  /** Magic, version and header size. */
  ghost predicate Headed(f: seq<Byte>) {
    && |f| >= 80 && (forall k :: 0 <= k < 8 ==> f[k] == "ATT1MODL"[k] as int)
    && ((Word(f, 8) == 1 && Word(f, 12) == 80) || (Word(f, 8) == 2 && Word(f, 12) == 96 && |f| >= 96))
  }

  /** The sections the header names lie in the file, and the configuration has its 36 bytes. */
  ghost predicate Sectioned(f: seq<Byte>)
    requires |f| >= 80
  {
    && Long(f, 24) == 36 && Long(f, 16) + 36 <= |f|
    && Long(f, 32) + 128 * Long(f, 40) <= |f| && Long(f, 48) + Long(f, 56) <= |f|
  }

  /** The 128 bytes at p describe one to four dimensions and a payload inside the data section. */
  ghost predicate Described(f: seq<Byte>, p: int, dataSize: int) {
    0 <= p && p + 128 <= |f| && 1 <= Word(f, p + 68) <= 4 && Long(f, p + 104) + Long(f, p + 112) <= dataSize
  }

  /** The first n descriptors. */
  ghost predicate DescribedTo(f: seq<Byte>, descs: int, dataSize: int, n: int) {
    forall i :: 0 <= i < n ==> Described(f, descs + 128 * i, dataSize)
  }

  ghost predicate AllDescribed(f: seq<Byte>)
    requires |f| >= 80
  {
    DescribedTo(f, Long(f, 32), Long(f, 56), Long(f, 40))
  }

  lemma {:induction false} WordBounds(f: seq<Byte>, p: nat)
    ensures p + 4 <= |f| ==> 0 <= Word(f, p) < 0x1_0000_0000
    ensures p + 8 <= |f| ==> Long(f, p) >= 0
  {
  }

  lemma {:induction false} MagicMeans(f: seq<Byte>)
    requires |f| >= 8
    ensures Slice(f, 0, 8) == Reader.Magic() <==> forall k :: 0 <= k < 8 ==> f[k] == "ATT1MODL"[k] as int
  {
    var s, m := Slice(f, 0, 8), Reader.Magic();
    assert forall k :: 0 <= k < 8 ==> m[k] == "ATT1MODL"[k] as int;
    assert forall k :: 0 <= k < 8 ==> s[k] == f[k];
    if forall k :: 0 <= k < 8 ==> f[k] == "ATT1MODL"[k] as int {
      forall k | 0 <= k < 8
        ensures s[k] == m[k]
      {
      }
    } else {
      var k :| 0 <= k < 8 && f[k] != "ATT1MODL"[k] as int;
      assert s[k] != m[k];
    }
  }

  lemma {:induction false} HeadedMeans(f: seq<Byte>)
    ensures Reader.HeaderError(f).None? <==> Headed(f)
  {
    if |f| >= 80 {
      MagicMeans(f);
      WordIs(f, 8);
      WordIs(f, 12);
    }
    hide Slice;
    hide Word;
    hide ReadU32;
    hide Reader.Magic;
  }

  /** What the reader makes of one descriptor. */
  ghost predicate TensorRead(f: seq<Byte>, p: int, base: int, m: Reader.ModelTensor) {
    && 0 <= p && p + 128 <= |f|
    && NameRead(f, p, m.name)
    && m.dtype == Word(f, p + 64) && m.ndims == Word(f, p + 68) == |m.shape| && |m.shape| <= 4
    && (forall k :: 0 <= k < |m.shape| ==> m.shape[k] == Long(f, p + 72 + 8 * k))
    && |m.raw| == Long(f, p + 112) && 0 <= base + Long(f, p + 104) && base + Long(f, p + 104) + |m.raw| <= |f|
    && (forall k :: 0 <= k < |m.raw| ==> m.raw[k] == f[base + Long(f, p + 104) + k])
    && m.flags == Word(f, p + 120)
  }

  /** The name field without the NULs it ends in; bytes outside of ASCII become the replacement character. */
  ghost predicate NameRead(f: seq<Byte>, p: int, name: string)
    requires 0 <= p && p + 64 <= |f|
  {
    && |name| <= 64
    && (forall k :: 0 <= k < |name| ==> name[k] == if NameByte(f, p, k) < 128 then NameByte(f, p, k) as char else '\U{FFFD}')
    && (forall k :: |name| <= k < 64 ==> NameByte(f, p, k) == 0) && (|name| > 0 ==> NameByte(f, p, |name| - 1) != 0)
  }

  function NameByte(f: seq<Byte>, p: int, k: int): Byte
    requires 0 <= p && p + 64 <= |f| && 0 <= k < 64
  {
    f[p + k]
  }

  lemma {:induction false} StripMeans(b: seq<Byte>)
    ensures var s := Reader.StripNuls(b);
            && s <= b && (forall k :: |s| <= k < |b| ==> b[k] == 0) && (|s| > 0 ==> s[|s| - 1] != 0)
  {
    if |b| > 0 && b[|b| - 1] == 0 {
      StripMeans(b[..|b| - 1]);
    }
  }

  lemma {:induction false} NameMeans(f: seq<Byte>, p: nat)
    requires p + 64 <= |f|
    ensures NameRead(f, p, Reader.DecodeAscii(Reader.StripNuls(Slice(f, p, 64))))
  {
    var b := Slice(f, p, 64);
    StripMeans(b);
    forall k | 0 <= k < 64
      ensures b[k] == NameByte(f, p, k)
    {
      SliceAt(f, p, 64, k);
    }
    hide Slice;
    hide Reader.StripNuls;
  }

  lemma {:induction false} ShapeMeans(f: seq<Byte>, p: nat, n: nat)
    requires p + 128 <= |f| && n <= 4
    ensures forall k :: 0 <= k < n ==> Reader.ReadShape(f, p, n)[k] == Long(f, p + 72 + 8 * k)
  {
    forall k | 0 <= k < n
      ensures Reader.ReadShape(f, p, n)[k] == Long(f, p + 72 + 8 * k)
    {
      LongIs(f, p + 72 + 8 * k);
    }
  }

  lemma {:induction false} RawMeans(f: seq<Byte>, at: nat, n: nat)
    requires at + n <= |f|
    ensures forall k :: 0 <= k < n ==> Slice(f, at, n)[k] == f[at + k]
  {
    forall k | 0 <= k < n
      ensures Slice(f, at, n)[k] == f[at + k]
    {
      SliceAt(f, at, n, k);
    }
  }

  lemma {:induction false} FieldsOf(f: seq<Byte>, p: nat)
    requires p + 128 <= |f|
    ensures ReadU32(f, p + 64) == Word(f, p + 64) && ReadU32(f, p + 68) == Word(f, p + 68) && ReadU32(f, p + 120) == Word(f, p + 120)
    ensures ReadU64(f, p + 104) == Long(f, p + 104) && ReadU64(f, p + 112) == Long(f, p + 112)
  {
    WordIs(f, p + 64);
    WordIs(f, p + 68);
    WordIs(f, p + 120);
    LongIs(f, p + 104);
    LongIs(f, p + 112);
  }

  /** One descriptor. */
  lemma {:induction false} TensorMeans(f: seq<Byte>, p: nat, base: nat, dataSize: nat)
    requires p + 128 <= |f| && base + dataSize <= |f|
    ensures Reader.ParseTensor(f, p, base, dataSize).Ok? <==> Described(f, p, dataSize)
    ensures Described(f, p, dataSize) ==> TensorRead(f, p, base, Reader.ParseTensor(f, p, base, dataSize).value)
  {
    FieldsOf(f, p);
    WordBounds(f, p + 104);
    WordBounds(f, p + 112);
    NameMeans(f, p);
    hide Word;
    hide Long;
    hide NameRead;
    hide ReadU32;
    hide ReadU64;
    hide Slice;
    hide Reader.ReadShape;
    hide Reader.DecodeAscii;
    hide Reader.StripNuls;
    if Described(f, p, dataSize) {
      ShapeMeans(f, p, Word(f, p + 68));
      RawMeans(f, base + Long(f, p + 104), Long(f, p + 112));
    }
  }

  ghost predicate TensorsRead(f: seq<Byte>, descs: int, base: int, ms: seq<Reader.ModelTensor>) {
    forall i :: 0 <= i < |ms| ==> TensorRead(f, descs + 128 * i, base, ms[i])
  }

  lemma {:induction false} TensorsMean(f: seq<Byte>, descs: nat, base: nat, dataSize: nat, n: nat)
    requires descs + 128 * n <= |f| && base + dataSize <= |f|
    ensures Reader.ParseTensors(f, descs, base, dataSize, n).Ok? <==> DescribedTo(f, descs, dataSize, n)
    ensures Reader.ParseTensors(f, descs, base, dataSize, n).Ok? ==>
              var ms := Reader.ParseTensors(f, descs, base, dataSize, n).value;
              |ms| == n && TensorsRead(f, descs, base, ms)
  {
    hide Reader.ParseTensor;
    hide Described;
    hide TensorRead;
    if n > 0 {
      TensorsMean(f, descs, base, dataSize, n - 1);
      TensorMeans(f, descs + 128 * (n - 1), base, dataSize);
    }
  }

  /** The configuration is nine words. */
  ghost predicate ConfigRead(f: seq<Byte>, p: int, c: Reader.ModelConfig) {
    && 0 <= p && p + 36 <= |f|
    && c.vocabSize == Word(f, p) && c.nLayers == Word(f, p + 4) && c.nHeads == Word(f, p + 8) && c.dModel == Word(f, p + 12)
    && c.dFf == Word(f, p + 16) && c.maxSeqLen == Word(f, p + 20) && c.ropeDim == Word(f, p + 24)
    && c.nTiles == Word(f, p + 28) && c.shardCount == Word(f, p + 32)
  }

  lemma {:induction false} ConfigMeans(f: seq<Byte>, p: nat)
    requires p + 36 <= |f|
    ensures ConfigRead(f, p, Reader.ReadConfig(f, p))
  {
    WordIs(f, p);
    WordIs(f, p + 4);
    WordIs(f, p + 8);
    WordIs(f, p + 12);
    WordIs(f, p + 16);
    WordIs(f, p + 20);
    WordIs(f, p + 24);
    WordIs(f, p + 28);
    WordIs(f, p + 32);
    hide Word;
    hide ReadU32;
  }

  lemma {:induction false} HeaderWordsMean(f: seq<Byte>)
    requires |f| >= 80
    ensures ReadU32(f, 8) == Word(f, 8)
    ensures ReadU64(f, 16) == Long(f, 16) && ReadU64(f, 24) == Long(f, 24) && ReadU64(f, 32) == Long(f, 32)
    ensures ReadU64(f, 40) == Long(f, 40) && ReadU64(f, 48) == Long(f, 48) && ReadU64(f, 56) == Long(f, 56)
    ensures Long(f, 16) >= 0 && Long(f, 24) >= 0 && Long(f, 32) >= 0 && Long(f, 40) >= 0 && Long(f, 48) >= 0 && Long(f, 56) >= 0
  {
    WordIs(f, 8);
    LongIs(f, 16);
    LongIs(f, 24);
    LongIs(f, 32);
    LongIs(f, 40);
    LongIs(f, 48);
    LongIs(f, 56);
    hide ReadU32;
    hide Word;
    hide Long;
  }

  /** The reader takes exactly the files with a known header whose sections and payloads lie inside, and returns what their
      bytes say. */
  lemma {:induction false} ReaderMeans(f: seq<Byte>)
    ensures Reader.Parse(f).Ok? <==> Headed(f) && Sectioned(f) && AllDescribed(f)
    ensures Reader.Parse(f).Ok? ==>
              var m := Reader.Parse(f).value;
              && m.version == Word(f, 8) && ConfigRead(f, Long(f, 16), m.config)
              && |m.tensors| == Long(f, 40) && TensorsRead(f, Long(f, 32), Long(f, 48), m.tensors)
  {
    assert Headed(f) ==> |f| >= 80;
    hide *;
    HeadedMeans(f);
    if Headed(f) {
      SectionsMean(f);
    } else {
      BadHeader(f);
    }
  }

  lemma {:induction false} SectionsMean(f: seq<Byte>)
    requires |f| >= 80 && Reader.HeaderError(f).None?
    ensures Reader.Parse(f).Ok? <==> Sectioned(f) && AllDescribed(f)
    ensures Reader.Parse(f).Ok? ==>
              var m := Reader.Parse(f).value;
              && m.version == Word(f, 8) && ConfigRead(f, Long(f, 16), m.config)
              && |m.tensors| == Long(f, 40) && TensorsRead(f, Long(f, 32), Long(f, 48), m.tensors)
  {
    hide *;
    HeaderWordsMean(f);
    SectionedMeans(f);
    ParseFollows(f, Long(f, 16), Long(f, 24), Long(f, 32), Long(f, 40), Long(f, 48), Long(f, 56));
    if Sectioned(f) {
      ConfigMeans(f, Long(f, 16));
      TensorsMean(f, Long(f, 32), Long(f, 48), Long(f, 56), Long(f, 40));
      AllDescribedMeans(f);
    }
  }

  lemma {:induction false} BadHeader(f: seq<Byte>)
    requires Reader.HeaderError(f).Some?
    ensures Reader.Parse(f).Err?
  {
    hide Reader.HeaderError;
    hide Reader.ParseTensors;
  }

  lemma {:induction false} SectionedMeans(f: seq<Byte>)
    requires |f| >= 80
    ensures Sectioned(f) <==> Long(f, 24) == 36 && Long(f, 16) + 36 <= |f| && Long(f, 32) + 128 * Long(f, 40) <= |f| && Long(f, 48) + Long(f, 56) <= |f|
  {
    hide Long;
  }

  lemma {:induction false} AllDescribedMeans(f: seq<Byte>)
    requires |f| >= 80
    ensures AllDescribed(f) <==> DescribedTo(f, Long(f, 32), Long(f, 56), Long(f, 40))
  {
    hide Long;
    hide DescribedTo;
  }

  lemma {:induction false} ParseFollows(f: seq<Byte>, config: nat, configSize: nat, descs: nat, count: nat, base: nat, size: nat)
    requires |f| >= 80 && Reader.HeaderError(f).None?
    requires ReadU64(f, 16) == config && ReadU64(f, 24) == configSize && ReadU64(f, 32) == descs && ReadU64(f, 40) == count
    requires ReadU64(f, 48) == base && ReadU64(f, 56) == size
    ensures var fits := configSize == 36 && config + 36 <= |f| && descs + 128 * count <= |f| && base + size <= |f|;
            && (Reader.Parse(f).Ok? <==> fits && Reader.ParseTensors(f, descs, base, size, count).Ok?)
            && (Reader.Parse(f).Ok? ==>
                  Reader.Parse(f).value
                  == Reader.Model(ReadU32(f, 8), Reader.ReadConfig(f, config), Reader.ParseTensors(f, descs, base, size, count).value))
  {
    hide Reader.HeaderError;
    hide Reader.ParseTensors;
    hide Reader.ReadConfig;
    hide ReadU32;
    hide ReadU64;
  }
}
