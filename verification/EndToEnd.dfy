/** From a source tensor through conversion, quantisation and the file, back to usable weights. */
module EndToEnd {
  import opened Common
  import opened Bytes
  import opened Quant
  import opened QuantCodec
  import opened TensorPlan
  import opened Att1Writer
  import opened PlannedTensors
  import opened Att1RoundTrip
  import Reader = Att1Reader
  import Layout

  /** A decoded element is as close to the original as its group's scale and the storage of that scale allow. */
  ghost predicate CloseAt(f: F32, sch: Scheme, values: seq<real>, n: nat, e: nat, decoded: real)
    requires |values| == n * sch.Group() && e < |values|
  {
    FlatSplit(e, n, sch.Group());
    var g := e / sch.Group();
    Faithful(sch, values[e], MaxAbs(GroupOf(values, sch.Group(), n, g)), Scale(sch, values, n, g),
             f.Stored(Scale(sch, values, n, g)), Code(sch, values, n, e), decoded)
  }

  ghost predicate Recovered(f: F32, sch: Scheme, values: seq<real>, n: nat, decoded: seq<real>)
    requires |values| == n * sch.Group()
  {
    |decoded| == |values| && forall e :: 0 <= e < |values| ==> CloseAt(f, sch, values, n, e, decoded[e])
  }

  lemma {:induction false} StoredScale(f: F32, sch: Scheme, values: seq<real>, n: nat, g: nat)
    requires |values| == n * sch.Group() && g < n
    ensures StoredAll(f, Scales(sch, values, n))[g] == f.Stored(Scale(sch, values, n, g))
  {
    hide Scale;
  }

  lemma {:induction false} ElementIsClose(f: F32, sch: Scheme, values: seq<real>, n: nat, stored: seq<real>, e: nat)
    requires |values| == n * sch.Group() && |stored| == n && stored == StoredAll(f, Scales(sch, values, n)) && e < |values|
    ensures CloseAt(f, sch, values, n, e, Dequantize(sch, Codes(sch, values, n), stored)[e])
  {
    hide Scheme.Group;
    hide Dequantize;
    hide Codes;
    hide Scales;
    hide StoredAll;
    hide Faithful;
    hide Scale;
    hide Code;
    hide MaxAbs;
    hide GroupOf;
    QuantizationBound(sch, values, n, stored, e);
    StoredScale(f, sch, values, n, e / sch.Group());
  }

  lemma {:induction false} StoredIsRecovered(f: F32, sch: Scheme, values: seq<real>, n: nat)
    requires |values| == n * sch.Group()
    ensures Recovered(f, sch, values, n, Dequantize(sch, Codes(sch, values, n), StoredAll(f, Scales(sch, values, n))))
  {
    var stored := StoredAll(f, Scales(sch, values, n));
    hide Scheme.Group;
    hide Dequantize;
    hide Codes;
    hide Scales;
    hide StoredAll;
    hide CloseAt;
    forall e | 0 <= e < |values|
      ensures CloseAt(f, sch, values, n, e, Dequantize(sch, Codes(sch, values, n), stored)[e])
    {
      ElementIsClose(f, sch, values, n, stored, e);
    }
  }

  /** The weights of a two-dimensional f32 tensor in the transposed layout quantised storage uses. */
  function Transposed(f: F32, t: Tensor): (w: seq<real>)
    requires F32Sized(t) && |t.shape| == 2
    ensures |w| == t.shape[1] * t.shape[0]
  {
    ProductOfTwo(t.shape);
    assert t.shape[0] * t.shape[1] == t.shape[1] * t.shape[0];
    Layout.Transpose(ReadF32s(f, t.data, Product(t.shape)), t.shape[0], t.shape[1])
  }

  /** What reading a written tensor guarantees: quantised storage decodes to within the bound, with the
      group size the reader itself deduces, and anything else is byte for byte the f32 tensor. */
  ghost predicate Survives(f: F32, fmt: Format, t: Tensor, m: Reader.ModelTensor)
    requires F32Sized(t)
  {
    m.name == t.name &&
    if fmt == FormatQ8 && Q8Eligible(t.name, t.shape) then
      var outDim, inDim := t.shape[1], t.shape[0];
      && m.dtype == DTYPE_Q8 && |m.shape| == 2 && m.shape[0] == outDim && m.shape[1] == inDim
      && outDim * inDim + 4 * outDim <= |m.raw|
      && Recovered(f, Q8(inDim), Transposed(f, t), outDim, DecodeQ8(f, m.raw, outDim, inDim))
    else if fmt == FormatQ4 && Q4Eligible(t.name, t.shape) then
      var outDim, inDim := t.shape[1], t.shape[0];
      var n := outDim * (inDim / Q4_GROUP_SIZE);
      && m.dtype == DTYPE_Q4 && |m.shape| == 2 && m.shape[0] == outDim && m.shape[1] == inDim
      && m.GroupSize() == Q4_GROUP_SIZE && outDim * inDim == n * Q4_GROUP_SIZE
      && outDim * inDim % 2 == 0 && outDim * inDim / 2 + 4 * n <= |m.raw|
      && Recovered(f, Q4(Q4_GROUP_SIZE), Transposed(f, t), n, DecodeQ4(f, m.raw, outDim * inDim, n, Q4_GROUP_SIZE))
    else m.dtype == t.dtype && m.raw == t.data
  }

  lemma {:induction false} Q8Survives(f: F32, t: Tensor, m: Reader.ModelTensor)
    requires F32Sized(t) && Q8Eligible(t.name, t.shape) && ReadsBackAs(Quantize(f, FormatQ8, t), m)
    ensures Survives(f, FormatQ8, t, m)
  {
    var outDim, inDim, w := t.shape[1], t.shape[0], Transposed(f, t);
    QuantizedQ8(f, t);
    hide Transposed;
    hide Quantize;
    hide Q8Data;
    hide DecodeQ8;
    hide Recovered;
    hide Dequantize;
    hide Codes;
    hide Scales;
    hide StoredAll;
    Q8StorageRoundTrip(f, w, outDim, inDim);
    StoredIsRecovered(f, Q8(inDim), w, outDim);
  }

  lemma {:induction false} QuantizedQ8(f: F32, t: Tensor)
    requires F32Sized(t) && Q8Eligible(t.name, t.shape)
    ensures Quantize(f, FormatQ8, t)
         == Tensor(t.name, [t.shape[1], t.shape[0]], DTYPE_Q8, Q8Data(f, Transposed(f, t), t.shape[1], t.shape[0]), 0)
  {
    hide Q8Data;
    hide Layout.Transpose;
    hide ReadF32s;
    hide Product;
  }

  lemma {:induction false} QuantizedQ4(f: F32, t: Tensor)
    requires F32Sized(t) && Q4Eligible(t.name, t.shape)
    ensures t.shape[1] * t.shape[0] == (t.shape[1] * (t.shape[0] / Q4_GROUP_SIZE)) * Q4_GROUP_SIZE
    ensures t.shape[1] * t.shape[0] % 2 == 0
    ensures Quantize(f, FormatQ4, t)
         == Tensor(t.name, [t.shape[1], t.shape[0]], DTYPE_Q4,
                   Q4Data(f, Transposed(f, t), t.shape[1] * (t.shape[0] / Q4_GROUP_SIZE), Q4_GROUP_SIZE), Q4_GROUP_SIZE)
  {
    var groups := t.shape[0] / Q4_GROUP_SIZE;
    TotalGroups(t.shape[1], groups, Q4_GROUP_SIZE, t.shape[0]);
    HalfSize(t.shape[1] * groups, Q4_GROUP_SIZE);
    hide Q4Data;
    hide Layout.Transpose;
    hide ReadF32s;
    hide Product;
  }

  lemma {:induction false} Q4Survives(f: F32, t: Tensor, m: Reader.ModelTensor)
    requires F32Sized(t) && Q4Eligible(t.name, t.shape) && ReadsBackAs(Quantize(f, FormatQ4, t), m)
    requires m.GroupSize() == Q4_GROUP_SIZE
    ensures Survives(f, FormatQ4, t, m)
  {
    QuantizedQ4(f, t);
    var outDim, inDim, w := t.shape[1], t.shape[0], Transposed(f, t);
    var n := outDim * (inDim / Q4_GROUP_SIZE);
    hide Transposed;
    hide Quantize;
    hide Q4Data;
    hide DecodeQ4;
    hide Recovered;
    hide Dequantize;
    hide Codes;
    hide Scales;
    hide StoredAll;
    Q4StorageRoundTrip(f, w, n, Q4_GROUP_SIZE);
    StoredIsRecovered(f, Q4(Q4_GROUP_SIZE), w, n);
  }

  lemma {:induction false} TensorSurvives(f: F32, fmt: Format, t: Tensor, m: Reader.ModelTensor)
    requires F32Sized(t) && ReadsBackAs(Quantize(f, fmt, t), m)
    ensures Survives(f, fmt, t, m)
  {
    if fmt == FormatQ8 && Q8Eligible(t.name, t.shape) {
      Q8Survives(f, t, m);
    } else if fmt == FormatQ4 && Q4Eligible(t.name, t.shape) {
      Q4Survives(f, t, m);
    }
    hide Recovered;
    hide Transposed;
    hide Q4Data;
    hide Q8Data;
    hide DecodeQ4;
    hide DecodeQ8;
  }

  ghost predicate AllSurvive(f: F32, fmt: Format, ts: seq<Tensor>, r: Result<Reader.Model>) {
    match r
    case Err(_) => false
    case Ok(m) => |m.tensors| == |ts| && forall i :: 0 <= i < |ts| ==> F32Sized(ts[i]) && Survives(f, fmt, ts[i], m.tensors[i])
  }

  lemma {:induction false} FileSurvives(f: F32, fmt: Format, c: Config, ts: seq<Tensor>, r: Result<Reader.Model>)
    requires forall i :: 0 <= i < |ts| ==> F32Sized(ts[i])
    requires FileReadsBack(c, QuantizeAll(f, fmt, ts), r)
    ensures AllSurvive(f, fmt, ts, r)
  {
    hide Quantize;
    hide F32Sized;
    hide Survives;
    hide ReadsBackAs;
    hide ConfigReadsBackAs;
    var qs, ms := QuantizeAll(f, fmt, ts), r.value.tensors;
    forall i | 0 <= i < |ts|
      ensures Survives(f, fmt, ts[i], ms[i])
    {
      assert ReadsBackAs(qs[i], ms[i]) && qs[i] == Quantize(f, fmt, ts[i]);
      TensorSurvives(f, fmt, ts[i], ms[i]);
    }
  }

  lemma {:induction false} PlannedIs(f: F32, c: Config, src: Source, fmt: Format)
    requires Accepted(c) && WellSized(src) && Planned(f, c, src, fmt).Ok?
    ensures ConvertAll(f, c, src, SourcePlan(c)).Ok?
    ensures forall i :: 0 <= i < |ConvertAll(f, c, src, SourcePlan(c)).value| ==> F32Sized(ConvertAll(f, c, src, SourcePlan(c)).value[i])
    ensures Planned(f, c, src, fmt).value == QuantizeAll(f, fmt, ConvertAll(f, c, src, SourcePlan(c)).value)
  {
    ConversionIffLoadable(f, c, src);
    hide Accepted;
    hide SourcePlan;
    hide NamePlan;
    hide ConvertAll;
    hide F32Sized;
    hide MadeFor;
    hide QuantizeAll;
    AllSized(NamePlan(c), ConvertAll(f, c, src, SourcePlan(c)).value);
  }

  /** Convert, quantise, write, read, dequantise: every tensor of the model comes back under its planned
      name, exactly or within its quantisation bound. */
  lemma {:induction false} ConversionSurvivesTheFile(f: F32, c: Config, src: Source, fmt: Format, meta: bool, file: seq<Byte>)
    requires Accepted(c) && WellSized(src) && Planned(f, c, src, fmt).Ok?
    requires Build(c, Planned(f, c, src, fmt).value, meta) == Built(file)
    ensures ConvertAll(f, c, src, SourcePlan(c)).Ok?
    ensures AllSurvive(f, fmt, ConvertAll(f, c, src, SourcePlan(c)).value, Reader.Parse(file))
  {
    hide *;
    AcceptedIff(c);
    PlannedIs(f, c, src, fmt);
    FileRoundTrip(c, Planned(f, c, src, fmt).value, meta);
    FileSurvives(f, fmt, c, ConvertAll(f, c, src, SourcePlan(c)).value, Reader.Parse(file));
  }
}
