module HarnessWeights {
  // The weight dictionaries of the comparison harness: one made from a file that was read, one from the source model.

  import opened Common
  import opened Bytes
  import opened TensorPlan
  import opened QuantCodec
  import Reader = Att1Reader
  import Layout

  /** A numpy array: its shape and its values in row-major order. */
  datatype Array = Array(shape: Shape, values: seq<real>)

  type Arrays = map<string, Array>

  /** `np.array(values).reshape(shape)`. */
  function Reshape(values: seq<real>, shape: Shape): Result<Array> {
    if |values| == Product(shape) then Ok(Array(shape, values)) else Err("cannot reshape")
  }

  // ------------------------------------------------------------- from a file

  lemma {:induction false} ProductNatural(s: seq<nat>)
    ensures Product(s) >= 0
  {
    if |s| > 0 {
      ProductNatural(s[..|s| - 1]);
      MulMonotone(0, Product(s[..|s| - 1]), s[|s| - 1]);
    }
  }

  /** The values of one tensor; None stands for a dtype the harness skips. */
  function ValuesOf(f: F32, m: Reader.ModelTensor): Result<Option<seq<real>>> {
    if m.dtype == DTYPE_F32 then
      ProductNatural(m.shape);
      if 4 * Product(m.shape) > |m.raw| then Err("payload too short") else Ok(Some(ReadF32s(f, m.raw, Product(m.shape))))
    else if m.dtype == DTYPE_Q8 then
      if |m.shape| < 2 then Err("shape index out of range")
      else
        var rows, cols := m.shape[0], m.shape[1];
        if rows * cols + 4 * rows > |m.raw| then Err("payload too short")
        else Ok(Some(StoredAll(f, DecodeQ8(f, m.raw, rows, cols))))
    else if m.dtype == DTYPE_Q4 then
      if |m.shape| < 2 then Err("shape index out of range")
      else
        var rows, cols, gs := m.shape[0], m.shape[1], m.GroupSize();
        if !Q4Readable(rows, cols, gs, |m.raw|) then Err("cannot dequantize")
        else
          TotalGroups(rows, cols / gs, gs, cols);
          Ok(Some(StoredAll(f, DecodeQ4(f, m.raw, rows * cols, rows * (cols / gs), gs))))
    else Ok(None)
  }

  /** The group size divides the row length, elements come in pairs, and the payload reaches to the last scale. */
  predicate Q4Readable(rows: nat, cols: nat, gs: nat, length: nat) {
    gs > 0 && cols % gs == 0 && rows * cols % 2 == 0 && rows * cols / 2 + 4 * (rows * (cols / gs)) <= length
  }

  /** One turn of the loop: skip the tensor, or enter it under its name. */
  function Enter(f: F32, w: Arrays, m: Reader.ModelTensor): Result<Arrays> {
    match ValuesOf(f, m)
    case Err(e) => Err(e)
    case Ok(None) => Ok(w)
    case Ok(Some(values)) =>
      match Reshape(values, m.shape)
      case Err(e) => Err(e)
      case Ok(a) => Ok(w[m.name := a])
  }

  function FileArrays(f: F32, ms: seq<Reader.ModelTensor>): Result<Arrays> {
    if |ms| == 0 then Ok(map[])
    else
      match FileArrays(f, ms[..|ms| - 1])
      case Err(e) => Err(e)
      case Ok(w) => Enter(f, w, ms[|ms| - 1])
  }

  /** `_load_weights_numpy`. */
  method LoadFile(f: F32, ms: seq<Reader.ModelTensor>) returns (r: Result<Arrays>)
    ensures r == FileArrays(f, ms)
  {
    hide Enter;
    var w: Arrays := map[];
    assert ms[..0] == [];
    for i := 0 to |ms|
      invariant FileArrays(f, ms[..i]) == Ok(w)
    {
      TakeNext(ms, i);
      var next := Enter(f, w, ms[i]);
      if next.Err? {
        FileErrorStays(f, ms, i + 1);
        return Err(next.error);
      }
      w := next.value;
    }
    TakeAll(ms);
    r := Ok(w);
  }

  lemma {:induction false} FileErrorStays(f: F32, ms: seq<Reader.ModelTensor>, i: nat)
    requires i <= |ms| && FileArrays(f, ms[..i]).Err?
    ensures FileArrays(f, ms) == FileArrays(f, ms[..i])
  {
    if i < |ms| {
      assert ms[..|ms| - 1][..i] == ms[..i];
      FileErrorStays(f, ms[..|ms| - 1], i);
    } else {
      TakeAll(ms);
    }
  }

  // --------------------------------------------------------- from the source

  /** `_load_st_tensor` with the fallback for a missing lm_head.  The shape is not looked at. */
  function Fetch(src: Source, item: SourceItem): Result<seq<real>> {
    if item.source in src then Ok(src[item.source].values)
    else if item.source == "lm_head.weight" && "model.embed_tokens.weight" in src then Ok(src["model.embed_tokens.weight"].values)
    else Err("tensor not found")
  }

  /** Transposed where the plan says so; the loops index past the end of a tensor that is too short. */
  function Turn(item: SourceItem, values: seq<real>): Result<seq<real>> {
    if !item.transpose then Ok(values)
    else if |item.sourceShape| != 2 || item.sourceShape[0] < 0 || item.sourceShape[1] < 0 then Err("not a matrix")
    else
      var rows, cols := item.sourceShape[0], item.sourceShape[1];
      if rows * cols > |values| then Err("index out of range")
      else Ok(Layout.Transpose(values[..rows * cols], rows, cols))
  }

  function SourceArray(f: F32, src: Source, item: SourceItem): Result<Array> {
    match Fetch(src, item)
    case Err(e) => Err(e)
    case Ok(values) =>
      match Turn(item, values)
      case Err(e) => Err(e)
      case Ok(turned) => Reshape(StoredAll(f, turned), item.targetShape)
  }

  function SourceArrays(f: F32, src: Source, items: seq<SourceItem>): Result<Arrays> {
    if |items| == 0 then Ok(map[])
    else
      match SourceArrays(f, src, items[..|items| - 1])
      case Err(e) => Err(e)
      case Ok(w) =>
        match SourceArray(f, src, items[|items| - 1])
        case Err(e) => Err(e)
        case Ok(a) => Ok(w[items[|items| - 1].target := a])
  }

  /** `_load_source_weights_numpy`. */
  method LoadSource(f: F32, src: Source, items: seq<SourceItem>) returns (r: Result<Arrays>)
    ensures r == SourceArrays(f, src, items)
  {
    var w: Arrays := map[];
    assert items[..0] == [];
    for i := 0 to |items|
      invariant SourceArrays(f, src, items[..i]) == Ok(w)
    {
      TakeNext(items, i);
      var a := LoadSourceTensor(f, src, items[i]);
      if a.Err? {
        SourceErrorStays(f, src, items, i + 1);
        return Err(a.error);
      }
      w := w[items[i].target := a.value];
    }
    TakeAll(items);
    r := Ok(w);
  }

  /** The body of the loop. */
  method LoadSourceTensor(f: F32, src: Source, item: SourceItem) returns (r: Result<Array>)
    ensures r == SourceArray(f, src, item)
  {
    var fetched := Fetch(src, item);
    if fetched.Err? {
      return Err(fetched.error);
    }
    var values := fetched.value;
    if item.transpose {
      if |item.sourceShape| != 2 || item.sourceShape[0] < 0 || item.sourceShape[1] < 0 {
        return Err("not a matrix");
      }
      var rows, cols := item.sourceShape[0], item.sourceShape[1];
      if rows * cols > |values| {
        return Err("index out of range");
      }
      var turned := Layout.TransposeByLoops(values[..rows * cols], rows, cols);
      values := turned[..];
    }
    r := Reshape(StoredAll(f, values), item.targetShape);
  }

  lemma {:induction false} SourceErrorStays(f: F32, src: Source, items: seq<SourceItem>, i: nat)
    requires i <= |items| && SourceArrays(f, src, items[..i]).Err?
    ensures SourceArrays(f, src, items) == SourceArrays(f, src, items[..i])
  {
    if i < |items| {
      assert items[..|items| - 1][..i] == items[..i];
      SourceErrorStays(f, src, items[..|items| - 1], i);
    } else {
      TakeAll(items);
    }
  }

  // ------------------------------------------------------------ dictionaries

  /** Entering arrays under names one after another; the last one under a name stands. */
  function Dictionary(names: seq<string>, arrays: seq<Array>): Arrays
    requires |names| == |arrays|
  {
    var n := |names| - 1;
    if n < 0 then map[] else Dictionary(names[..n], arrays[..n])[names[n] := arrays[n]]
  }

  ghost predicate Distinct(names: seq<string>) {
    forall i, j :: 0 <= i < j < |names| ==> names[i] != names[j]
  }

  lemma {:induction false} EntryAt(names: seq<string>, arrays: seq<Array>, i: nat)
    requires |names| == |arrays| && i < |names| && Distinct(names)
    ensures names[i] in Dictionary(names, arrays) && Dictionary(names, arrays)[names[i]] == arrays[i]
  {
    var n := |names| - 1;
    if i < n {
      EntryAt(names[..n], arrays[..n], i);
    }
  }

  /** What a tensor of the file enters. */
  ghost predicate Enters(f: F32, m: Reader.ModelTensor, name: string, a: Array) {
    m.name == name && ValuesOf(f, m) == Ok(Some(a.values)) && Reshape(a.values, m.shape) == Ok(a)
  }

  lemma {:induction false} FileDictionary(f: F32, ms: seq<Reader.ModelTensor>, names: seq<string>, arrays: seq<Array>)
    requires |ms| == |names| == |arrays| && forall i :: 0 <= i < |ms| ==> Enters(f, ms[i], names[i], arrays[i])
    ensures FileArrays(f, ms) == Ok(Dictionary(names, arrays))
  {
    hide ValuesOf;
    hide Reshape;
    var n := |ms| - 1;
    if n >= 0 {
      FileDictionary(f, ms[..n], names[..n], arrays[..n]);
      assert Enters(f, ms[n], names[n], arrays[n]);
    }
  }

  lemma {:induction false} SourceDictionary(f: F32, src: Source, items: seq<SourceItem>, names: seq<string>, arrays: seq<Array>)
    requires |items| == |names| == |arrays|
    requires forall i :: 0 <= i < |items| ==> items[i].target == names[i] && SourceArray(f, src, items[i]) == Ok(arrays[i])
    ensures SourceArrays(f, src, items) == Ok(Dictionary(names, arrays))
  {
    hide SourceArray;
    var n := |items| - 1;
    if n >= 0 {
      SourceDictionary(f, src, items[..n], names[..n], arrays[..n]);
    }
  }

  /** One array that cannot be made fails the whole dictionary. */
  lemma {:induction false} SourceFails(f: F32, src: Source, items: seq<SourceItem>, i: nat)
    requires i < |items| && SourceArray(f, src, items[i]).Err?
    ensures SourceArrays(f, src, items).Err?
  {
    hide SourceArray;
    var n := |items| - 1;
    if i < n {
      SourceFails(f, src, items[..n], i);
    }
  }
}
