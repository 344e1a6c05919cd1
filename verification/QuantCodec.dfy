/** Byte-level storage of quantised codes, and the writer's and reader's loops over it. */
module QuantCodec {
  import opened Common
  import opened Bytes
  import opened LinearAlgebra
  import opened Quant
  import Layout

  // ---------------------------------------------------------------- packing

  /** The low four bits of a code, `q & 0x0F`. */
  function Nibble(q: int): (n: int)
    ensures 0 <= n < 16
  {
    q % 16
  }

  function SignExtend4(n: int): int {
    if n >= 8 then n - 16 else n
  }

  /** Even element in the low nibble, odd element in the high one: `lo | (hi << 4)`. */
  function PackPair(lo: int, hi: int): Byte {
    Nibble(lo) + 16 * Nibble(hi)
  }

  function Pack4(codes: seq<int>): (b: seq<Byte>)
    requires |codes| % 2 == 0
    ensures |b| == |codes| / 2
  {
    seq(|codes| / 2, k requires 0 <= k < |codes| / 2 => PackPair(codes[2 * k], codes[2 * k + 1]))
  }

  /** Element e as the reader extracts it: nibble `e % 2` of byte `e / 2`. */
  function Unpack4At(packed: seq<Byte>, e: nat): int
    requires e / 2 < |packed|
  {
    var byteVal := packed[e / 2];
    SignExtend4(if e % 2 == 0 then byteVal % 16 else (byteVal / 16) % 16)
  }

  function Unpack4(packed: seq<Byte>, count: nat): (q: seq<int>)
    requires count <= 2 * |packed|
    ensures |q| == count
  {
    seq(count, e requires 0 <= e < count => Unpack4At(packed, e))
  }

  lemma {:induction false} Unpack4Inverts(codes: seq<int>)
    requires |codes| % 2 == 0
    requires forall e :: 0 <= e < |codes| ==> -8 <= codes[e] < 8
    ensures Unpack4(Pack4(codes), |codes|) == codes
  {
    forall e | 0 <= e < |codes|
      ensures Unpack4At(Pack4(codes), e) == codes[e]
    {
      NibblesInvert(codes[2 * (e / 2)], codes[2 * (e / 2) + 1]);
    }
  }

  lemma {:induction false} NibblesInvert(lo: int, hi: int)
    requires -8 <= lo < 8 && -8 <= hi < 8
    ensures SignExtend4(PackPair(lo, hi) % 16) == lo
    ensures SignExtend4((PackPair(lo, hi) / 16) % 16) == hi
  {
  }

  /** `struct.pack("b", q)`: two's complement in one byte. */
  function Pack8(codes: seq<int>): (b: seq<Byte>)
    ensures |b| == |codes|
  {
    seq(|codes|, e requires 0 <= e < |codes| => codes[e] % 256)
  }

  function Unpack8At(b: Byte): int {
    if b >= 128 then b - 256 else b
  }

  function Unpack8(bytes: seq<Byte>): (q: seq<int>)
    ensures |q| == |bytes|
  {
    seq(|bytes|, e requires 0 <= e < |bytes| => Unpack8At(bytes[e]))
  }

  lemma {:induction false} Unpack8Inverts(codes: seq<int>)
    requires forall e :: 0 <= e < |codes| ==> -128 <= codes[e] < 128
    ensures Unpack8(Pack8(codes)) == codes
  {
  }

  // ------------------------------------------------------------ positions

  /** Group g of row r is flat group r * groupsPerRow + g, for every per-group stride. */
  lemma {:induction false} GroupPosition(r: nat, g: nat, rows: nat, groups: nat, stride: nat, width: nat)
    requires r < rows && g < groups && width == groups * stride
    ensures r * groups + g < rows * groups
    ensures r * width + g * stride == (r * groups + g) * stride
  {
    FlatIndex(r, g, rows, groups);
    MulAssoc(r, groups, stride);
  }

  /** The reader's scale index of (row, col) is the flat element's group. */
  lemma {:induction false} ScalePosition(row: nat, col: nat, rows: nat, groups: nat, gs: nat, cols: nat)
    requires row < rows && col < cols == groups * gs
    ensures gs > 0 && row * cols + col < (rows * groups) * gs
    ensures row * groups + col / gs == (row * cols + col) / gs < rows * groups
  {
    FlatSplit(col, groups, gs);
    var g, i := col / gs, col % gs;
    GroupPosition(row, g, rows, groups, gs, cols);
    FlatIndex(row * groups + g, i, rows * groups, gs);
  }

  lemma {:induction false} TotalGroups(rows: nat, groups: nat, gs: nat, cols: nat)
    requires cols == groups * gs
    ensures rows * cols == (rows * groups) * gs
  {
    MulAssoc(rows, groups, gs);
  }

  // --------------------------------------------------------------- q4 writer

  /** `n_groups_per_row`. */
  function GroupsIn(cols: nat, gs: nat): nat
    requires gs > 0
  {
    cols / gs
  }

  /** `start`: where group g of row r begins. */
  function StartOf(cols: nat, gs: nat, r: nat, g: nat): nat {
    r * cols + g * gs
  }

  /** `base_packed`: where its bytes begin. */
  function BaseOf(cols: nat, gs: nat, r: nat, g: nat): nat {
    r * (cols / 2) + g * (gs / 2)
  }

  /** Group g of row r, whether or not the groups use up the row. */
  function RowGroup(values: seq<real>, rows: nat, cols: nat, gs: nat, r: nat, g: nat): (s: seq<real>)
    requires gs > 0 && |values| == rows * cols && r < rows && g < GroupsIn(cols, gs)
    ensures |s| == gs
  {
    StartFits(rows, cols, gs, r, g);
    var start := StartOf(cols, gs, r, g);
    values[start..start + gs]
  }

  function RowScale(values: seq<real>, rows: nat, cols: nat, gs: nat, r: nat, g: nat): (s: real)
    requires gs > 0 && |values| == rows * cols && r < rows && g < GroupsIn(cols, gs)
    ensures s > 0.0
  {
    ScaleFor(MaxAbs(RowGroup(values, rows, cols, gs, r, g)), 7)
  }

  /** No division by zero, and no group whose last element lacks a partner. */
  predicate Pairable(rows: nat, cols: nat, gs: nat) {
    gs > 0 && (gs % 2 == 0 || rows == 0 || cols < gs)
  }

  /** Byte b of the packed buffer: row strides of cols // 2 bytes, group strides of gs // 2, zero where no group reaches. */
  function PackedByte(values: seq<real>, rows: nat, cols: nat, gs: nat, b: nat): Byte
    requires Pairable(rows, cols, gs) && |values| == rows * cols
  {
    if cols < 2 || gs < 2 then 0
    else
      var o := b % (cols / 2);
      ByteOf(values, rows, cols, gs, b / (cols / 2), o / (gs / 2), o % (gs / 2))
  }

  function ByteOf(values: seq<real>, rows: nat, cols: nat, gs: nat, r: int, g: int, k: int): Byte
    requires gs > 0 && |values| == rows * cols
  {
    if 0 <= r < rows && 0 <= g < GroupsIn(cols, gs) && 0 <= k < gs / 2 then
      PairCode(RowGroup(values, rows, cols, gs, r, g), RowScale(values, rows, cols, gs, r, g), gs, k)
    else
      0
  }

  function PackedBytes(values: seq<real>, rows: nat, cols: nat, gs: nat): (s: seq<Byte>)
    requires Pairable(rows, cols, gs) && |values| == rows * cols
    ensures |s| == rows * cols / 2
  {
    seq(rows * cols / 2, b requires 0 <= b < rows * cols / 2 => PackedByte(values, rows, cols, gs, b))
  }

  function RowScales(values: seq<real>, rows: nat, cols: nat, gs: nat, r: nat): (s: seq<real>)
    requires gs > 0 && |values| == rows * cols && r < rows
    ensures |s| == GroupsIn(cols, gs)
  {
    seq(GroupsIn(cols, gs), g requires 0 <= g < GroupsIn(cols, gs) => RowScale(values, rows, cols, gs, r, g))
  }

  /** The scales of the first `upto` rows. */
  function ScaleList(values: seq<real>, rows: nat, cols: nat, gs: nat, upto: nat): (s: seq<real>)
    requires gs > 0 && |values| == rows * cols && upto <= rows
    ensures |s| == upto * (GroupsIn(cols, gs))
  {
    if upto == 0 then [] else ScaleList(values, rows, cols, gs, upto - 1) + RowScales(values, rows, cols, gs, upto - 1)
  }

  lemma {:induction false} StartFits(rows: nat, cols: nat, gs: nat, r: nat, g: nat)
    requires gs > 0 && r < rows && g < GroupsIn(cols, gs)
    ensures StartOf(cols, gs, r, g) + gs <= rows * cols
  {
    FlatRowBound(r, rows, cols);
    FlatRowBound(g, GroupsIn(cols, gs), gs);
    HalfGroups(cols, gs);
  }

  lemma {:induction false} GroupInRow(rows: nat, cols: nat, gs: nat, r: nat, g: nat)
    requires gs > 0 && r < rows && g < GroupsIn(cols, gs)
    ensures g * (gs / 2) + gs / 2 <= GroupsIn(cols, gs) * (gs / 2) <= cols / 2
    ensures r * (cols / 2) + cols / 2 <= rows * (cols / 2) <= rows * cols / 2
  {
    FlatRowBound(r, rows, cols / 2);
    FlatRowBound(g, GroupsIn(cols, gs), gs / 2);
    HalfRows(rows, cols);
    HalfGroups(cols, gs);
  }

  lemma {:induction false} HalfRows(rows: nat, cols: nat)
    ensures rows * (cols / 2) <= rows * cols / 2
  {
    MulMonotone(2 * (cols / 2), cols, rows);
    MulAssoc(2, cols / 2, rows);
  }

  lemma {:induction false} HalfGroups(cols: nat, gs: nat)
    requires gs > 0
    ensures GroupsIn(cols, gs) * gs <= cols && GroupsIn(cols, gs) * (gs / 2) <= cols / 2
  {
    assert cols == gs * (GroupsIn(cols, gs)) + cols % gs;
    HalfRows(GroupsIn(cols, gs), gs);
  }

  lemma {:induction false} BaseSteps(cols: nat, gs: nat, r: nat, g: nat)
    ensures BaseOf(cols, gs, r, g + 1) == BaseOf(cols, gs, r, g) + gs / 2
    ensures BaseOf(cols, gs, r + 1, 0) == BaseOf(cols, gs, r, 0) + cols / 2
    ensures BaseOf(cols, gs, 0, 0) == 0
  {
    assert (g + 1) * (gs / 2) == g * (gs / 2) + gs / 2;
    assert (r + 1) * (cols / 2) == r * (cols / 2) + cols / 2;
  }

  lemma {:induction false} BaseFits(rows: nat, cols: nat, gs: nat, r: nat, g: nat)
    requires gs > 0 && r < rows && g < GroupsIn(cols, gs)
    ensures BaseOf(cols, gs, r, g) + gs / 2 <= rows * cols / 2
  {
    GroupInRow(rows, cols, gs, r, g);
  }

  /** A row's groups end where its stride does, or before. */
  lemma {:induction false} RowFits(rows: nat, cols: nat, gs: nat, r: nat)
    requires gs > 0 && r < rows
    ensures BaseOf(cols, gs, r, GroupsIn(cols, gs)) <= BaseOf(cols, gs, r + 1, 0) <= rows * cols / 2
  {
    FlatRowBound(r, rows, cols / 2);
    HalfRows(rows, cols);
    HalfGroups(cols, gs);
  }

  /** The bytes written so far are right and the rest of the buffer is still zero. */
  ghost predicate Filled(packed: seq<Byte>, want: seq<Byte>, upto: nat) {
    && |packed| == |want| && upto <= |want|
    && packed[..upto] == want[..upto]
    && forall b :: upto <= b < |packed| ==> packed[b] == 0
  }

  ghost predicate ZeroBetween(s: seq<Byte>, begin: nat, end: nat) {
    begin <= end <= |s| && forall b :: begin <= b < end ==> s[b] == 0
  }

  lemma {:induction false} PairWanted(values: seq<real>, rows: nat, cols: nat, gs: nat, r: nat, g: nat, k: nat)
    requires gs > 0 && gs % 2 == 0 && |values| == rows * cols && r < rows && g < GroupsIn(cols, gs) && k < gs / 2
    ensures BaseOf(cols, gs, r, g) + k < rows * cols / 2
    ensures PackedBytes(values, rows, cols, gs)[BaseOf(cols, gs, r, g) + k]
         == PairCode(RowGroup(values, rows, cols, gs, r, g), RowScale(values, rows, cols, gs, r, g), gs, k)
  {
    BaseFits(rows, cols, gs, r, g);
    PairSplits(rows, cols, gs, r, g, k);
    hide PairCode;
    hide RowScale;
    hide RowGroup;
    hide BaseOf;
  }

  lemma {:induction false} PairSplits(rows: nat, cols: nat, gs: nat, r: nat, g: nat, k: nat)
    requires gs > 0 && gs % 2 == 0 && r < rows && g < GroupsIn(cols, gs) && k < gs / 2
    ensures var b := BaseOf(cols, gs, r, g) + k;
            && cols >= gs >= 2 && b / (cols / 2) == r
            && b % (cols / 2) / (gs / 2) == g && b % (cols / 2) % (gs / 2) == k
  {
    GroupInRow(rows, cols, gs, r, g);
    FlatIndex(g, k, GroupsIn(cols, gs), gs / 2);
    var o := g * (gs / 2) + k;
    FlatIndex(r, o, rows, cols / 2);
    assert BaseOf(cols, gs, r, g) + k == r * (cols / 2) + o;
  }

  /** What a row that its groups do not use up leaves zero. */
  lemma {:induction false} RestWanted(values: seq<real>, rows: nat, cols: nat, gs: nat, r: nat, b: nat)
    requires Pairable(rows, cols, gs) && |values| == rows * cols && r < rows
    requires BaseOf(cols, gs, r, GroupsIn(cols, gs)) <= b < BaseOf(cols, gs, r + 1, 0)
    ensures PackedByte(values, rows, cols, gs, b) == 0
  {
    hide PairCode;
    hide RowScale;
    hide RowGroup;
    RestSplits(rows, cols, gs, r, b);
    hide BaseOf;
  }

  lemma {:induction false} RestSplits(rows: nat, cols: nat, gs: nat, r: nat, b: nat)
    requires gs > 0 && r < rows && BaseOf(cols, gs, r, GroupsIn(cols, gs)) <= b < BaseOf(cols, gs, r + 1, 0)
    ensures cols >= 2 && b / (cols / 2) == r
    ensures gs >= 2 ==> b % (cols / 2) / (gs / 2) >= GroupsIn(cols, gs)
  {
    BaseSteps(cols, gs, r, 0);
    RestOffset(rows, cols / 2, r, GroupsIn(cols, gs), gs / 2, b);
  }

  lemma {:induction false} RestOffset(rows: nat, w: nat, r: nat, groups: nat, half: nat, b: nat)
    requires r < rows && r * w + groups * half <= b < r * w + w
    ensures w > 0 && b / w == r && (half > 0 ==> b % w / half >= groups)
  {
    var o := b - r * w;
    FlatIndex(r, o, rows, w);
    if half > 0 {
      PastGroups(o, groups, half);
    }
  }

  lemma {:induction false} PastGroups(o: nat, groups: nat, half: nat)
    requires half > 0 && groups * half <= o
    ensures o / half >= groups
  {
    if o / half < groups {
      FlatRowBound(o / half, groups, half);
      assert false;
    }
  }

  /** With an odd row length the last bytes belong to no row. */
  lemma {:induction false} TailWanted(values: seq<real>, rows: nat, cols: nat, gs: nat, b: nat)
    requires Pairable(rows, cols, gs) && |values| == rows * cols && b >= BaseOf(cols, gs, rows, 0)
    ensures PackedByte(values, rows, cols, gs, b) == 0
  {
    hide PairCode;
    hide RowScale;
    hide RowGroup;
    if cols >= 2 && b / (cols / 2) < rows {
      FlatRowBound(b / (cols / 2), rows, cols / 2);
      assert false;
    }
  }

  /** `_q4_quantize`: rows of groups; packed bytes and one scale per group.  An odd group size is an IndexError at the
      first group, a zero one a ZeroDivisionError. */
  method QuantizeQ4(values: seq<real>, rows: nat, cols: nat, gs: nat)
    returns (ok: bool, packed: array<Byte>, scales: seq<real>)
    requires |values| == rows * cols
    ensures fresh(packed) && ok == Pairable(rows, cols, gs)
    ensures ok ==> packed[..] == PackedBytes(values, rows, cols, gs) && scales == ScaleList(values, rows, cols, gs, rows)
  {
    packed := new Byte[rows * cols / 2](_ => 0);
    if gs == 0 {
      return false, packed, [];
    }
    scales := [];
    ghost var want := if Pairable(rows, cols, gs) then PackedBytes(values, rows, cols, gs) else packed[..];
    assert Sized(values, rows, cols, packed.Length);
    BaseSteps(cols, gs, 0, 0);
    assert Filled(packed[..], want, 0);
    hide *;
    PairableSteps(rows, cols, gs);
    ScaleSteps(values, rows, cols, gs);
    for r := 0 to rows
      invariant Pairable(r, cols, gs)
      invariant Pairable(rows, cols, gs) ==> Filled(packed[..], want, BaseOf(cols, gs, r, 0))
      invariant scales == ScaleList(values, rows, cols, gs, r)
    {
      var rowScales;
      ok, rowScales := QuantizeRow(values, rows, cols, gs, r, packed, want);
      if !ok {
        return;
      }
      scales := scales + rowScales;
    }
    ok := true;
    TailIsZero(values, rows, cols, gs);
    Advance(packed[..], want, BaseOf(cols, gs, rows, 0), |want|);
    AllFilled(packed[..], want);
  }

  lemma {:induction false} PairableSteps(rows: nat, cols: nat, gs: nat)
    requires gs > 0
    ensures Pairable(0, cols, gs) && forall r :: 0 < r <= rows ==> Pairable(r, cols, gs) == Pairable(rows, cols, gs)
  {
  }

  lemma {:induction false} ScaleSteps(values: seq<real>, rows: nat, cols: nat, gs: nat)
    requires gs > 0 && |values| == rows * cols
    ensures ScaleList(values, rows, cols, gs, 0) == []
    ensures forall r :: 0 <= r < rows ==>
              ScaleList(values, rows, cols, gs, r + 1) == ScaleList(values, rows, cols, gs, r) + RowScales(values, rows, cols, gs, r)
  {
    hide RowScales;
  }

  lemma {:induction false} AllFilled(packed: seq<Byte>, want: seq<Byte>)
    requires Filled(packed, want, |want|)
    ensures packed == want
  {
  }

  lemma {:induction false} TailIsZero(values: seq<real>, rows: nat, cols: nat, gs: nat)
    requires Pairable(rows, cols, gs) && |values| == rows * cols
    ensures ZeroBetween(PackedBytes(values, rows, cols, gs), BaseOf(cols, gs, rows, 0), rows * cols / 2)
  {
    HalfRows(rows, cols);
    assert BaseOf(cols, gs, rows, 0) <= rows * cols / 2;
    hide BaseOf;
    hide PackedByte;
    forall b | BaseOf(cols, gs, rows, 0) <= b < rows * cols / 2
      ensures PackedBytes(values, rows, cols, gs)[b] == 0
    {
      TailWanted(values, rows, cols, gs, b);
    }
  }

  lemma {:induction false} RestIsZero(values: seq<real>, rows: nat, cols: nat, gs: nat, r: nat)
    requires Pairable(rows, cols, gs) && |values| == rows * cols && r < rows
    ensures ZeroBetween(PackedBytes(values, rows, cols, gs), BaseOf(cols, gs, r, GroupsIn(cols, gs)), BaseOf(cols, gs, r + 1, 0))
  {
    hide BaseOf;
    hide PackedByte;
    RowFits(rows, cols, gs, r);
    forall b | BaseOf(cols, gs, r, GroupsIn(cols, gs)) <= b < BaseOf(cols, gs, r + 1, 0)
      ensures PackedBytes(values, rows, cols, gs)[b] == 0
    {
      RestWanted(values, rows, cols, gs, r, b);
    }
  }

  ghost predicate Sized(values: seq<real>, rows: nat, cols: nat, length: nat) {
    |values| == rows * cols && length == rows * cols / 2
  }

  /** The group loop of one row. */
  method QuantizeRow(values: seq<real>, rows: nat, cols: nat, gs: nat, r: nat, packed: array<Byte>, ghost want: seq<Byte>)
    returns (ok: bool, scales: seq<real>)
    requires gs > 0 && Sized(values, rows, cols, packed.Length) && r < rows
    requires Pairable(rows, cols, gs) ==>
               want == PackedBytes(values, rows, cols, gs) && Filled(packed[..], want, BaseOf(cols, gs, r, 0))
    modifies packed
    ensures ok == Pairable(rows, cols, gs)
    ensures ok ==> Filled(packed[..], want, BaseOf(cols, gs, r + 1, 0)) && scales == RowScales(values, rows, cols, gs, r)
  {
    ghost var wantScales := RowScales(values, rows, cols, gs, r);
    hide *;
    PairableIff(rows, cols, gs);
    ok, scales := QuantizeGroups(values, rows, cols, gs, r, packed, want, wantScales);
    if ok {
      RestIsZero(values, rows, cols, gs, r);
      Advance(packed[..], want, BaseOf(cols, gs, r, GroupsIn(cols, gs)), BaseOf(cols, gs, r + 1, 0));
    }
  }

  lemma {:induction false} PairableIff(rows: nat, cols: nat, gs: nat)
    requires gs > 0 && rows > 0
    ensures Pairable(rows, cols, gs) <==> gs % 2 == 0 || GroupsIn(cols, gs) == 0
  {
  }

  /** Its loop. */
  method QuantizeGroups(values: seq<real>, rows: nat, cols: nat, gs: nat, r: nat,
                        packed: array<Byte>, ghost want: seq<Byte>, ghost wantScales: seq<real>)
    returns (ok: bool, scales: seq<real>)
    requires gs > 0 && Sized(values, rows, cols, packed.Length) && r < rows && wantScales == RowScales(values, rows, cols, gs, r)
    requires gs % 2 == 0 || GroupsIn(cols, gs) == 0 ==>
               want == PackedBytes(values, rows, cols, gs) && Filled(packed[..], want, BaseOf(cols, gs, r, 0))
    modifies packed
    ensures ok == (gs % 2 == 0 || GroupsIn(cols, gs) == 0)
    ensures ok ==> Filled(packed[..], want, BaseOf(cols, gs, r, GroupsIn(cols, gs))) && scales == wantScales
  {
    hide *;
    scales := [];
    for g := 0 to GroupsIn(cols, gs)
      invariant g == 0 || gs % 2 == 0
      invariant scales == wantScales[..g]
      invariant gs % 2 == 0 || GroupsIn(cols, gs) == 0 ==> Filled(packed[..], want, BaseOf(cols, gs, r, g))
    {
      var scale;
      ok, scale := QuantizeOneGroup(values, rows, cols, gs, r, g, packed, want, wantScales);
      if !ok {
        return;
      }
      TakeNext(wantScales, g);
      scales := scales + [scale];
    }
    ok := true;
    TakeAll(wantScales);
  }

  lemma {:induction false} Advance(packed: seq<Byte>, want: seq<Byte>, begin: nat, end: nat)
    requires Filled(packed, want, begin) && ZeroBetween(want, begin, end)
    ensures Filled(packed, want, end)
  {
  }

  /** One group at the offsets the source computes: its scale, then its codes pair by pair. */
  method QuantizeOneGroup(values: seq<real>, rows: nat, cols: nat, gs: nat, r: nat, g: nat,
                          packed: array<Byte>, ghost want: seq<Byte>, ghost wantScales: seq<real>)
    returns (ok: bool, scale: real)
    requires gs > 0 && Sized(values, rows, cols, packed.Length) && r < rows && g < GroupsIn(cols, gs)
    requires gs % 2 == 0 ==>
               want == PackedBytes(values, rows, cols, gs) && Filled(packed[..], want, BaseOf(cols, gs, r, g))
    requires wantScales == RowScales(values, rows, cols, gs, r)
    modifies packed
    ensures ok == (gs % 2 == 0)
    ensures scale == wantScales[g]
    ensures ok ==> Filled(packed[..], want, BaseOf(cols, gs, r, g + 1))
  {
    hide PackedBytes;
    hide PairCode;
    hide ScaleFor;
    hide MaxAbs;
    hide StartOf;
    hide BaseOf;
    StartFits(rows, cols, gs, r, g);
    var start, base := StartOf(cols, gs, r, g), BaseOf(cols, gs, r, g);
    var group := values[start..start + gs];
    scale := ScaleFor(MaxAbs(group), 7);
    assert scale == RowScale(values, rows, cols, gs, r, g);
    BaseFits(rows, cols, gs, r, g);
    BaseSteps(cols, gs, r, g);
    GroupWanted(values, rows, cols, gs, r, g);
    hide *;
    ok := StorePairs(group, scale, gs, packed, base, want);
  }

  lemma {:induction false} GroupWanted(values: seq<real>, rows: nat, cols: nat, gs: nat, r: nat, g: nat)
    requires gs > 0 && |values| == rows * cols && r < rows && g < GroupsIn(cols, gs)
    ensures BaseOf(cols, gs, r, g) + gs / 2 <= rows * cols / 2
    ensures gs % 2 == 0 ==> forall k :: 0 <= k < gs / 2 ==>
              PackedBytes(values, rows, cols, gs)[BaseOf(cols, gs, r, g) + k]
              == PairCode(RowGroup(values, rows, cols, gs, r, g), RowScale(values, rows, cols, gs, r, g), gs, k)
  {
    BaseFits(rows, cols, gs, r, g);
    hide *;
    if gs % 2 == 0 {
      forall k | 0 <= k < gs / 2
        ensures PackedBytes(values, rows, cols, gs)[BaseOf(cols, gs, r, g) + k]
             == PairCode(RowGroup(values, rows, cols, gs, r, g), RowScale(values, rows, cols, gs, r, g), gs, k)
      {
        PairWanted(values, rows, cols, gs, r, g, k);
      }
    }
  }

  /** The innermost loop: two codes per byte; the last element of an odd group has no partner. */
  method StorePairs(group: seq<real>, scale: real, gs: nat, packed: array<Byte>, base: nat, ghost want: seq<Byte>)
    returns (ok: bool)
    requires |group| == gs && scale > 0.0 && base + gs / 2 <= packed.Length
    requires gs % 2 == 0 ==>
               && Filled(packed[..], want, base)
               && forall k :: 0 <= k < gs / 2 ==> want[base + k] == PairCode(group, scale, gs, k)
    modifies packed
    ensures ok == (gs % 2 == 0)
    ensures ok ==> Filled(packed[..], want, base + gs / 2)
  {
    hide CodeFor;
    hide PackPair;
    var j := 0;
    while j < gs
      invariant 0 <= j <= gs && j % 2 == 0
      invariant gs % 2 == 0 ==> Filled(packed[..], want, base + j / 2)
    {
      if j + 1 >= gs {
        return false;
      }
      assert 2 * (j / 2) == j;
      assert gs % 2 == 0 ==> want[base + j / 2] == PairCode(group, scale, gs, j / 2);
      packed[base + j / 2] := PackPair(CodeFor(Q4(gs), group[j], scale), CodeFor(Q4(gs), group[j + 1], scale));
      j := j + 2;
    }
    assert 2 * (j / 2) == j;
    ok := true;
  }

  function PairCode(group: seq<real>, scale: real, gs: nat, k: nat): Byte
    requires |group| == gs && 2 * k + 1 < gs && scale > 0.0
  {
    PackPair(CodeFor(Q4(gs), group[2 * k], scale), CodeFor(Q4(gs), group[2 * k + 1], scale))
  }

  /** When the group size is even and divides the row length, as the converter's eligibility test demands, the buffer
      is the packing of all codes and the scale list is that of the flat groups. */
  lemma {:induction false} WholeGroups(values: seq<real>, rows: nat, cols: nat, gs: nat)
    requires gs > 0 && gs % 2 == 0 && cols % gs == 0 && |values| == rows * cols
    ensures |values| == (rows * (GroupsIn(cols, gs))) * gs && |values| % 2 == 0
    ensures PackedBytes(values, rows, cols, gs) == Pack4(Codes(Q4(gs), values, rows * (GroupsIn(cols, gs))))
    ensures ScaleList(values, rows, cols, gs, rows) == Scales(Q4(gs), values, rows * (GroupsIn(cols, gs)))
  {
    var groups := GroupsIn(cols, gs);
    var n := rows * groups;
    TotalGroups(rows, groups, gs, cols);
    HalfSize(n, gs);
    hide *;
    forall b | 0 <= b < rows * cols / 2
      ensures PackedBytes(values, rows, cols, gs)[b] == Pack4(Codes(Q4(gs), values, n))[b]
    {
      WholeByte(values, rows, cols, gs, b);
    }
    WholeScales(values, rows, cols, gs, rows);
    assert Scales(Q4(gs), values, n)[..n] == Scales(Q4(gs), values, n);
  }

  lemma {:induction false} WholeByte(values: seq<real>, rows: nat, cols: nat, gs: nat, b: nat)
    requires gs > 0 && gs % 2 == 0 && cols % gs == 0 && |values| == rows * cols && b < rows * cols / 2
    requires |values| == (rows * (GroupsIn(cols, gs))) * gs && |values| % 2 == 0
    ensures PackedBytes(values, rows, cols, gs)[b] == Pack4(Codes(Q4(gs), values, rows * (GroupsIn(cols, gs))))[b]
  {
    hide *;
    WholeRows(rows, cols, gs);
    var r, g, k := WholePlace(rows, cols, gs, b);
    WholePair(values, rows, cols, gs, rows * (GroupsIn(cols, gs)), r, g, r * (GroupsIn(cols, gs)) + g, k, (r * (GroupsIn(cols, gs)) + g) * (gs / 2));
  }

  lemma {:induction false} WholePair(values: seq<real>, rows: nat, cols: nat, gs: nat, n: nat, r: nat, g: nat, flat: nat, k: nat, base: nat)
    requires gs > 0 && gs % 2 == 0 && cols % gs == 0 && |values| == rows * cols == n * gs && |values| % 2 == 0
    requires n == rows * (GroupsIn(cols, gs)) && r < rows && g < GroupsIn(cols, gs) && k < gs / 2 && flat == r * (GroupsIn(cols, gs)) + g
    requires base == BaseOf(cols, gs, r, g) == flat * (gs / 2)
    ensures base + k < |values| / 2
    ensures PackedBytes(values, rows, cols, gs)[base + k] == Pack4(Codes(Q4(gs), values, n))[base + k]
  {
    hide *;
    PairWanted(values, rows, cols, gs, r, g, k);
    WholeGroup(values, rows, cols, gs, r, g);
    PairPosition(values, n, gs, flat, k, RowScale(values, rows, cols, gs, r, g), base);
  }

  lemma {:induction false} WholePlace(rows: nat, cols: nat, gs: nat, b: nat) returns (r: nat, g: nat, k: nat)
    requires gs > 0 && gs % 2 == 0 && cols % gs == 0 && b < rows * (cols / 2)
    ensures r < rows && g < GroupsIn(cols, gs) && k < gs / 2
    ensures b == BaseOf(cols, gs, r, g) + k == (r * (GroupsIn(cols, gs)) + g) * (gs / 2) + k
  {
    FlatSplit(b, rows, cols / 2);
    WholeRows(rows, cols, gs);
    var o := b % (cols / 2);
    FlatSplit(o, GroupsIn(cols, gs), gs / 2);
    r, g, k := b / (cols / 2), o / (gs / 2), o % (gs / 2);
    assert b == r * (cols / 2) + o && o == g * (gs / 2) + k;
    GroupPosition(r, g, rows, GroupsIn(cols, gs), gs / 2, cols / 2);
  }

  lemma {:induction false} WholeRows(rows: nat, cols: nat, gs: nat)
    requires gs > 0 && gs % 2 == 0 && cols % gs == 0
    ensures cols == GroupsIn(cols, gs) * gs && rows * cols / 2 == rows * (cols / 2) && cols / 2 == GroupsIn(cols, gs) * (gs / 2)
  {
    assert cols == gs * (GroupsIn(cols, gs));
    HalfSize(GroupsIn(cols, gs), gs);
    HalfSize(rows, cols);
  }

  lemma {:induction false} WholeGroup(values: seq<real>, rows: nat, cols: nat, gs: nat, r: nat, g: nat)
    requires gs > 0 && cols % gs == 0 && |values| == rows * cols == (rows * (GroupsIn(cols, gs))) * gs && r < rows && g < GroupsIn(cols, gs)
    ensures r * (GroupsIn(cols, gs)) + g < rows * (GroupsIn(cols, gs))
    ensures RowGroup(values, rows, cols, gs, r, g) == GroupOf(values, gs, rows * (GroupsIn(cols, gs)), r * (GroupsIn(cols, gs)) + g)
    ensures RowScale(values, rows, cols, gs, r, g) == Scale(Q4(gs), values, rows * (GroupsIn(cols, gs)), r * (GroupsIn(cols, gs)) + g)
  {
    hide MaxAbs;
    hide ScaleFor;
    GroupPosition(r, g, rows, GroupsIn(cols, gs), gs, cols);
  }

  lemma {:induction false} WholeScales(values: seq<real>, rows: nat, cols: nat, gs: nat, upto: nat)
    requires gs > 0 && cols % gs == 0 && |values| == rows * cols == (rows * (GroupsIn(cols, gs))) * gs && upto <= rows
    ensures upto * (GroupsIn(cols, gs)) <= rows * (GroupsIn(cols, gs))
    ensures ScaleList(values, rows, cols, gs, upto) == Scales(Q4(gs), values, rows * (GroupsIn(cols, gs)))[..upto * (GroupsIn(cols, gs))]
  {
    MulMonotone(upto, rows, GroupsIn(cols, gs));
    if upto > 0 {
      var groups, r := GroupsIn(cols, gs), upto - 1;
      WholeScales(values, rows, cols, gs, r);
      FlatRowBound(r, rows, groups);
      forall g | 0 <= g < groups
        ensures r * groups + g < rows * groups
        ensures RowScales(values, rows, cols, gs, r)[g] == Scales(Q4(gs), values, rows * groups)[r * groups + g]
      {
        WholeGroup(values, rows, cols, gs, r, g);
      }
    }
  }

  lemma {:induction false} HalfSize(n: nat, gs: nat)
    requires gs % 2 == 0
    ensures (n * gs) % 2 == 0 && (n * gs) / 2 == n * (gs / 2)
  {
    assert gs == (gs / 2) * 2;
    MulAssoc(n, gs / 2, 2);
  }

  lemma {:induction false} PairPosition(values: seq<real>, n: nat, gs: nat, g: nat, k: nat, scale: real, base: nat)
    requires |values| == n * gs && g < n && gs % 2 == 0 && |values| % 2 == 0
    requires k < gs / 2 && scale == Scale(Q4(gs), values, n, g) && base == g * (gs / 2)
    ensures base + k < |values| / 2
    ensures Pack4(Codes(Q4(gs), values, n))[base + k] == PairCode(GroupOf(values, gs, n, g), scale, gs, k)
  {
    hide Scale;
    hide CodeFor;
    hide Codes;
    hide GroupOf;
    var e := 2 * (base + k);
    PairElements(n, gs, g, k, base);
    CodeInGroup(values, n, gs, g, 2 * k, e, scale);
    CodeInGroup(values, n, gs, g, 2 * k + 1, e + 1, scale);
  }

  lemma {:induction false} PairElements(n: nat, gs: nat, g: nat, k: nat, base: nat)
    requires g < n && gs % 2 == 0 && k < gs / 2 && base == g * (gs / 2)
    ensures 2 * (base + k) == g * gs + 2 * k && g * gs + gs <= n * gs
  {
    FlatRowBound(g, n, gs);
    HalfSize(g, gs);
  }

  /** The code of element i of group g. */
  lemma {:induction false} CodeInGroup(values: seq<real>, n: nat, gs: nat, g: nat, i: nat, e: nat, scale: real)
    requires |values| == n * gs && g < n && i < gs && e == g * gs + i && scale == Scale(Q4(gs), values, n, g)
    ensures e < |values| && Codes(Q4(gs), values, n)[e] == CodeFor(Q4(gs), GroupOf(values, gs, n, g)[i], scale)
  {
    hide *;
    FlatIndex(g, i, n, gs);
    CodeAt(values, n, gs, e, g, scale);
    GroupElement(values, n, gs, g, i, e);
  }

  lemma {:induction false} GroupElement(values: seq<real>, n: nat, gs: nat, g: nat, i: nat, e: nat)
    requires |values| == n * gs && g < n && i < gs && e == g * gs + i < |values|
    ensures GroupOf(values, gs, n, g)[i] == values[e]
  {
    FlatRowBound(g, n, gs);
    var start := g * gs;
    var s := GroupOf(values, gs, n, g);
    assert s == values[start..start + gs];
    hide GroupOf;
    SliceAt(values, start, gs, i);
  }

  lemma {:induction false} SliceAt(values: seq<real>, start: nat, length: nat, i: nat)
    requires start + length <= |values| && i < length
    ensures values[start..start + length][i] == values[start + i]
  {
  }

  lemma {:induction false} CodeAt(values: seq<real>, n: nat, gs: nat, e: nat, g: nat, scale: real)
    requires |values| == n * gs && e < |values| && gs > 0 && e / gs == g < n && scale == Scale(Q4(gs), values, n, g)
    ensures Codes(Q4(gs), values, n)[e] == CodeFor(Q4(gs), values[e], scale)
  {
    hide Scale;
    hide CodeFor;
  }

  // --------------------------------------------------------------- q8 writer

  /** The payload of a quantised tensor: all codes, then one f32 scale per group. */
  function Q4Data(c: F32, values: seq<real>, n: nat, gs: nat): (d: seq<Byte>)
    requires |values| == n * gs && |values| % 2 == 0
    ensures |d| == |values| / 2 + 4 * n
  {
    Pack4(Codes(Q4(gs), values, n)) + F32Bytes(c, Scales(Q4(gs), values, n))
  }

  function Q8Data(c: F32, values: seq<real>, rows: nat, cols: nat): (d: seq<Byte>)
    requires |values| == rows * cols
    ensures |d| == |values| + 4 * rows
  {
    Pack8(Codes(Q8(cols), values, rows)) + F32Bytes(c, Scales(Q8(cols), values, rows))
  }

  /** `_make_q8_tensor_from_f32`: transpose, then a scale and a run of signed bytes per row. */
  method QuantizeQ8(c: F32, values: seq<real>, inDim: nat, outDim: nat) returns (data: seq<Byte>)
    requires |values| == inDim * outDim
    ensures data == Q8Data(c, Layout.Transpose(values, inDim, outDim), outDim, inDim)
  {
    var q8Values := Layout.Transpose(values, inDim, outDim);
    var codes, scales := QuantizeRowsQ8(q8Values, inDim, outDim);
    data := Pack8(codes) + F32Bytes(c, scales);
  }

  method QuantizeRowsQ8(values: seq<real>, inDim: nat, outDim: nat) returns (codes: seq<int>, scales: seq<real>)
    requires |values| == outDim * inDim
    ensures codes == Codes(Q8(inDim), values, outDim) && scales == Scales(Q8(inDim), values, outDim)
  {
    ghost var wantCodes, wantScales := Codes(Q8(inDim), values, outDim), Scales(Q8(inDim), values, outDim);
    assert forall r :: 0 <= r < outDim ==> wantScales[r] == Scale(Q8(inDim), values, outDim, r);
    codes, scales := [], [];
    var begin := 0;
    hide *;
    for row := 0 to outDim
      invariant begin == row * inDim <= |wantCodes|
      invariant codes == wantCodes[..begin] && scales == wantScales[..row]
    {
      FlatRowBound(row, outDim, inDim);
      var rowCodes, scale := QuantizeRowQ8(values, inDim, outDim, row, begin);
      codes := codes + rowCodes;
      scales := scales + [scale];
      begin := begin + inDim;
    }
    assert begin == |wantCodes|;
  }

  method QuantizeRowQ8(values: seq<real>, inDim: nat, ghost outDim: nat, ghost row: nat, begin: nat)
    returns (codes: seq<int>, scale: real)
    requires |values| == outDim * inDim && row < outDim && begin == row * inDim
    ensures scale == Scale(Q8(inDim), values, outDim, row)
    ensures begin + inDim <= |values| && codes == Codes(Q8(inDim), values, outDim)[begin..begin + inDim]
  {
    FlatRowBound(row, outDim, inDim);
    var rowValues := values[begin..begin + inDim];
    assert rowValues == GroupOf(values, inDim, outDim, row);
    scale := ScaleFor(MaxAbs(rowValues), 127);
    assert scale == Scale(Q8(inDim), values, outDim, row);
    ghost var want := Codes(Q8(inDim), values, outDim);
    codes := [];
    hide *;
    for i := 0 to inDim
      invariant codes == want[begin..begin + i]
    {
      RowCode(values, inDim, outDim, row, i, scale, begin);
      codes := codes + [CodeFor(Q8(inDim), rowValues[i], scale)];
    }
  }

  lemma {:induction false} RowCode(values: seq<real>, inDim: nat, outDim: nat, row: nat, i: nat, scale: real, begin: nat)
    requires |values| == outDim * inDim && row < outDim && i < inDim && begin == row * inDim
    requires scale == Scale(Q8(inDim), values, outDim, row)
    ensures begin + i < |values| && Codes(Q8(inDim), values, outDim)[begin + i] == CodeFor(Q8(inDim), values[begin + i], scale)
  {
    FlatIndex(row, i, outDim, inDim);
    hide Scale;
    hide CodeFor;
  }

  // ------------------------------------------------------------------ reader

  /** The value the reader reconstructs from a q4 payload. */
  function DecodeQ4(c: F32, raw: seq<Byte>, count: nat, n: nat, gs: nat): (v: seq<real>)
    requires count == n * gs && count % 2 == 0 && count / 2 + 4 * n <= |raw|
    ensures |v| == count
  {
    Dequantize(Q4(gs), Unpack4(raw[..count / 2], count), ReadF32s(c, raw[count / 2..], n))
  }

  function DecodeQ8(c: F32, raw: seq<Byte>, rows: nat, cols: nat): (v: seq<real>)
    requires rows * cols + 4 * rows <= |raw|
    ensures |v| == rows * cols
  {
    Dequantize(Q8(cols), Unpack8(raw[..rows * cols]), ReadF32s(c, raw[rows * cols..], rows))
  }

  /** `_dequantize_q4`: a row and column loop over nibbles and scales.  A short payload is a struct.error, and with
      an odd number of elements the last nibble lies behind the packed bytes. */
  method DequantizeQ4(c: F32, raw: seq<Byte>, rows: nat, cols: nat, gs: nat) returns (r: Result<seq<real>>)
    requires gs > 0
    ensures r.Ok? <==> cols % gs == 0 && rows * cols % 2 == 0 && rows * cols / 2 + 4 * (rows * (cols / gs)) <= |raw|
    ensures r.Ok? ==>
      && rows * cols == (rows * (cols / gs)) * gs
      && r.value == DecodeQ4(c, raw, rows * cols, rows * (cols / gs), gs)
  {
    if cols % gs != 0 {
      return Err("cols not divisible by group_size");
    }
    var groups := cols / gs;
    TotalGroups(rows, groups, gs, cols);
    if rows * cols / 2 + 4 * (rows * groups) > |raw| {
      return Err("payload too short");
    }
    if rows * cols % 2 != 0 {
      return Err("index out of range");
    }
    var packed := raw[..rows * cols / 2];
    var scales := ReadF32s(c, raw[rows * cols / 2..], rows * groups);
    ghost var want := Dequantize(Q4(gs), Unpack4(packed, rows * cols), scales);
    var result := [];
    hide *;
    for row := 0 to rows
      invariant row * cols <= |want| && result == want[..row * cols]
    {
      FlatRowBound(row, rows, cols);
      var line := DequantizeRowQ4(packed, scales, rows, cols, groups, gs, rows * cols, row, row * cols, want);
      result := result + line;
    }
    r := Ok(result);
  }

  method DequantizeRowQ4(packed: seq<Byte>, scales: seq<real>, ghost rows: nat, cols: nat, groups: nat, gs: nat,
                         ghost count: nat, row: nat, ghost begin: nat, ghost want: seq<real>) returns (line: seq<real>)
    requires Q4Grid(packed, scales, rows, cols, groups, gs, count) && row < rows && begin == row * cols
    requires want == Dequantize(Q4(gs), Unpack4(packed, count), scales)
    ensures begin + cols <= |want| && line == want[begin..begin + cols]
  {
    FlatRowBound(row, rows, cols);
    line := [];
    assert begin + cols <= |want|;
    hide *;
    for col := 0 to cols
      invariant line == want[begin..begin + col]
    {
      var v := DequantizeCellQ4(packed, scales, rows, cols, groups, gs, count, row, col, begin + col, want);
      line := line + [v];
    }
  }

  /** Rows of whole groups, one scale a group, two codes a byte. */
  ghost predicate Q4Grid(packed: seq<Byte>, scales: seq<real>, rows: nat, cols: nat, groups: nat, gs: nat, count: nat) {
    && gs > 0 && cols == groups * gs && count == rows * cols
    && |scales| == rows * groups && count == |scales| * gs && count <= 2 * |packed|
  }

  lemma {:induction false} CellPosition(packed: seq<Byte>, scales: seq<real>, rows: nat, cols: nat, groups: nat, gs: nat, count: nat,
                                        row: nat, col: nat)
    requires Q4Grid(packed, scales, rows, cols, groups, gs, count) && row < rows && col < cols
    ensures gs > 0 && count == |scales| * gs && count <= 2 * |packed|
    ensures row * cols + col < count
    ensures row * groups + col / gs == (row * cols + col) / gs < |scales|
  {
    FlatIndex(row, col, rows, cols);
    ScalePosition(row, col, rows, groups, gs, cols);
  }

  lemma {:induction false} DecodedQ4(packed: seq<Byte>, scales: seq<real>, count: nat, gs: nat, e: nat)
    requires gs > 0 && e < count == |scales| * gs && count <= 2 * |packed|
    ensures e / gs < |scales|
    ensures Dequantize(Q4(gs), Unpack4(packed, count), scales)[e] == Decode(Unpack4At(packed, e), scales[e / gs])
  {
    var codes := Unpack4(packed, count);
    assert codes[e] == Unpack4At(packed, e);
    hide Unpack4;
    hide Dequantize;
    DequantizedAt(Q4(gs), codes, scales, e);
  }

  /** One element: the reader's byte, parity and scale index address the flat element. */
  method DequantizeCellQ4(packed: seq<Byte>, scales: seq<real>, ghost rows: nat, cols: nat, groups: nat, gs: nat,
                          ghost count: nat, row: nat, col: nat, ghost e: nat, ghost want: seq<real>) returns (v: real)
    requires Q4Grid(packed, scales, rows, cols, groups, gs, count) && row < rows && col < cols && e == row * cols + col
    requires want == Dequantize(Q4(gs), Unpack4(packed, count), scales)
    ensures e < |want| && v == want[e]
  {
    hide *;
    CellPosition(packed, scales, rows, cols, groups, gs, count, row, col);
    DecodedQ4(packed, scales, count, gs, e);
    v := Decode(Unpack4At(packed, row * cols + col), scales[row * groups + col / gs]);
  }

  /** `_dequantize_q8`; a short payload is a struct.error. */
  method DequantizeQ8(c: F32, raw: seq<Byte>, rows: nat, cols: nat) returns (r: Result<seq<real>>)
    ensures r.Ok? <==> rows * cols + 4 * rows <= |raw|
    ensures r.Ok? ==> r.value == DecodeQ8(c, raw, rows, cols)
  {
    if rows * cols + 4 * rows > |raw| {
      return Err("payload too short");
    }
    var ints := Unpack8(raw[..rows * cols]);
    var scales := ReadF32s(c, raw[rows * cols..], rows);
    ghost var want := Dequantize(Q8(cols), ints, scales);
    var result := [];
    hide *;
    for row := 0 to rows
      invariant row * cols <= |want| && result == want[..row * cols]
    {
      FlatRowBound(row, rows, cols);
      var line := DequantizeRowQ8(ints, scales, rows, cols, row, row * cols, want);
      result := result + line;
    }
    r := Ok(result);
  }

  method DequantizeRowQ8(ints: seq<int>, scales: seq<real>, ghost rows: nat, cols: nat, row: nat, begin: nat, ghost want: seq<real>)
    returns (line: seq<real>)
    requires |ints| == rows * cols && |scales| == rows && row < rows && begin == row * cols
    requires want == Dequantize(Q8(cols), ints, scales)
    ensures begin + cols <= |want| && line == want[begin..begin + cols]
  {
    FlatRowBound(row, rows, cols);
    var s := scales[row];
    line := [];
    hide Dequantize;
    hide Decode;
    for col := 0 to cols
      invariant line == want[begin..begin + col]
    {
      FlatIndex(row, col, rows, cols);
      DequantizedAt(Q8(cols), ints, scales, begin + col);
      line := line + [Decode(ints[begin + col], s)];
    }
  }

  // ------------------------------------------------------- write, then read

  /** Reading a written q4 payload yields the writer's codes with the scales as stored. */
  lemma {:induction false} Q4StorageRoundTrip(c: F32, values: seq<real>, n: nat, gs: nat)
    requires |values| == n * gs && |values| % 2 == 0
    ensures DecodeQ4(c, Q4Data(c, values, n, gs), |values|, n, gs)
         == Dequantize(Q4(gs), Codes(Q4(gs), values, n), StoredAll(c, Scales(Q4(gs), values, n)))
  {
    var codes, scales := Codes(Q4(gs), values, n), Scales(Q4(gs), values, n);
    var raw := Q4Data(c, values, n, gs);
    hide Codes;
    hide Scales;
    hide Dequantize;
    assert raw[..|values| / 2] == Pack4(codes);
    assert raw[|values| / 2..] == F32Bytes(c, scales) + [];
    hide Pack4;
    hide Unpack4;
    Unpack4Inverts(codes);
    F32RoundTrip(c, scales, []);
  }

  lemma {:induction false} Q8StorageRoundTrip(c: F32, values: seq<real>, rows: nat, cols: nat)
    requires |values| == rows * cols
    ensures DecodeQ8(c, Q8Data(c, values, rows, cols), rows, cols)
         == Dequantize(Q8(cols), Codes(Q8(cols), values, rows), StoredAll(c, Scales(Q8(cols), values, rows)))
  {
    var codes, scales := Codes(Q8(cols), values, rows), Scales(Q8(cols), values, rows);
    var raw := Q8Data(c, values, rows, cols);
    hide Codes;
    hide Scales;
    hide Dequantize;
    assert raw[..rows * cols] == Pack8(codes);
    assert raw[rows * cols..] == F32Bytes(c, scales) + [];
    hide Pack8;
    hide Unpack8;
    Unpack8Inverts(codes);
    F32RoundTrip(c, scales, []);
  }
}
