/** Fixed-layout little-endian records: what `struct.pack` writes and `unpack_from` reads back. */
module Records {
  import opened Common
  import opened Bytes

  datatype Field = U32(n: int) | U64(n: int) | Raw(bytes: seq<Byte>) {
    function Width(): nat {
      match this
      case U32(_) => 4
      case U64(_) => 8
      case Raw(b) => |b|
    }

    /** struct.error is raised for an integer outside the field's range. */
    predicate Fits() {
      match this
      case U32(n) => 0 <= n < U32_LIMIT
      case U64(n) => 0 <= n < U64_LIMIT
      case Raw(_) => true
    }

    function Encode(): (b: seq<Byte>)
      requires Fits()
      ensures |b| == Width()
    {
      match this
      case U32(n) => Le(n, 4)
      case U64(n) => Le(n, 8)
      case Raw(b) => b
    }
  }

  predicate AllFit(fields: seq<Field>) {
    forall i :: 0 <= i < |fields| ==> fields[i].Fits()
  }

  /** Byte position of field i, which for i = |fields| is the size of the record. */
  function Offset(fields: seq<Field>, i: nat): nat
    requires i <= |fields|
  {
    if i == 0 then 0 else Offset(fields, i - 1) + fields[i - 1].Width()
  }

  /** n fields of one width. */
  lemma {:induction false} OffsetRun(fields: seq<Field>, start: nat, n: nat, width: nat)
    requires start + n <= |fields| && forall k :: start <= k < start + n ==> fields[k].Width() == width
    ensures Offset(fields, start + n) == Offset(fields, start) + n * width
  {
    if n > 0 {
      OffsetRun(fields, start, n - 1, width);
    }
  }

  function Pack(fields: seq<Field>): (b: seq<Byte>)
    requires AllFit(fields)
    ensures |b| == Offset(fields, |fields|)
  {
    if |fields| == 0 then []
    else
      OffsetPrefix(fields, |fields| - 1, |fields| - 1);
      Pack(fields[..|fields| - 1]) + fields[|fields| - 1].Encode()
  }

  lemma {:induction false} OffsetPrefix(fields: seq<Field>, n: nat, i: nat)
    requires i <= n <= |fields|
    ensures Offset(fields[..n], i) == Offset(fields, i)
  {
    if i > 0 {
      OffsetPrefix(fields, n, i - 1);
    }
  }

  lemma {:induction false} OffsetBound(fields: seq<Field>, i: nat)
    requires i < |fields|
    ensures Offset(fields, i) + fields[i].Width() <= Offset(fields, |fields|)
    decreases |fields|
  {
    if i < |fields| - 1 {
      OffsetBound(fields[..|fields| - 1], i);
      OffsetPrefix(fields, |fields| - 1, i);
      OffsetPrefix(fields, |fields| - 1, |fields| - 1);
    }
  }

  lemma {:induction false} FieldAt(fields: seq<Field>, i: nat)
    requires AllFit(fields) && i < |fields|
    ensures Offset(fields, i) + fields[i].Width() <= |Pack(fields)|
    ensures Slice(Pack(fields), Offset(fields, i), fields[i].Width()) == fields[i].Encode()
    decreases |fields|
  {
    OffsetBound(fields, i);
    var n := |fields| - 1;
    OffsetPrefix(fields, n, i);
    OffsetPrefix(fields, n, n);
    var init, last := fields[..n], fields[n].Encode();
    assert Pack(fields) == Pack(init) + last;
    hide Slice;
    if i < n {
      FieldAt(init, i);
      assert init[i] == fields[i];
      SliceLeft(Pack(init), last, Offset(fields, i), fields[i].Width());
    } else {
      SliceRight(Pack(init), last, Offset(fields, i), fields[i].Width());
      SliceWhole(last);
    }
  }

  /** The reader's `_u32` and `_u64`. */
  function ReadU32(data: seq<Byte>, off: nat): nat
    requires off + 4 <= |data|
  {
    FromLe(Slice(data, off, 4))
  }

  function ReadU64(data: seq<Byte>, off: nat): nat
    requires off + 8 <= |data|
  {
    FromLe(Slice(data, off, 8))
  }

  /** The record `fields` sits at `base` in a file. */
  ghost predicate Sits(data: seq<Byte>, base: nat, fields: seq<Field>) {
    AllFit(fields) && base + |Pack(fields)| <= |data| && Slice(data, base, |Pack(fields)|) == Pack(fields)
  }

  lemma {:induction false} FieldBytes(data: seq<Byte>, base: nat, fields: seq<Field>, i: nat)
    requires Sits(data, base, fields) && i < |fields|
    ensures fields[i].Fits()
    ensures base + Offset(fields, i) + fields[i].Width() <= |data|
    ensures Slice(data, base + Offset(fields, i), fields[i].Width()) == fields[i].Encode()
  {
    hide *;
    SitsMeans(data, base, fields, i);
    FieldAt(fields, i);
    SameSlice(data, base, Pack(fields), Offset(fields, i), fields[i].Width());
  }

  lemma {:induction false} SitsMeans(data: seq<Byte>, base: nat, fields: seq<Field>, i: nat)
    requires Sits(data, base, fields) && i < |fields|
    ensures fields[i].Fits() && AllFit(fields)
    ensures base + |Pack(fields)| <= |data| && Slice(data, base, |Pack(fields)|) == Pack(fields)
  {
  }

  lemma {:induction false} SameSlice(data: seq<Byte>, base: nat, packed: seq<Byte>, off: nat, w: nat)
    requires base + |packed| <= |data| && Slice(data, base, |packed|) == packed && off + w <= |packed|
    ensures Slice(data, base + off, w) == Slice(packed, off, w)
  {
    hide *;
    SliceOfSlice(data, base, |packed|, off, w);
  }

  lemma {:induction false} IntegerField(f: Field)
    requires f.Fits()
    ensures f.U32? ==> f.Width() == 4 && FromLe(f.Encode()) == f.n
    ensures f.U64? ==> f.Width() == 8 && FromLe(f.Encode()) == f.n
  {
    Limits();
    match f
    case U32(n) => LeRoundTrip(n, 4);
    case U64(n) => LeRoundTrip(n, 8);
    case Raw(_) =>
  }

  /** A record that sits at `base` in a file gives back its fields. */
  lemma {:induction false} ReadU32Field(data: seq<Byte>, base: nat, fields: seq<Field>, i: nat, at: nat)
    requires Sits(data, base, fields) && i < |fields| && fields[i].U32? && at == base + Offset(fields, i)
    ensures at + 4 <= |data| && ReadU32(data, at) == fields[i].n
  {
    hide Sits;
    hide Slice;
    hide Offset;
    hide FromLe;
    hide Field.Width;
    hide Field.Encode;
    FieldBytes(data, base, fields, i);
    IntegerField(fields[i]);
  }

  lemma {:induction false} ReadU64Field(data: seq<Byte>, base: nat, fields: seq<Field>, i: nat, at: nat)
    requires Sits(data, base, fields) && i < |fields| && fields[i].U64? && at == base + Offset(fields, i)
    ensures at + 8 <= |data| && ReadU64(data, at) == fields[i].n
  {
    hide Sits;
    hide Slice;
    hide Offset;
    hide FromLe;
    hide Field.Width;
    hide Field.Encode;
    FieldBytes(data, base, fields, i);
    IntegerField(fields[i]);
  }
}
