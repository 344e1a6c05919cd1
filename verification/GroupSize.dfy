/** A concrete file on which the group size is lost between writer and reader. */
module GroupSize {
  import opened Common
  import opened Bytes
  import opened Records
  import opened Decimal
  import opened TensorPlan
  import opened PlannedTensors
  import opened Att1Writer
  import opened Att1RoundTrip
  import Reader = Att1Reader

  /** One layer, one head, every dimension 64. */
  function Small(): Config {
    Config(64, 1, 1, 1, 64, 64, 1, 2, 1, 0)
  }

  function Zeros(n: nat): (b: seq<Byte>)
    ensures |b| == n
  {
    seq(n, i => 0)
  }

  /** A tensor of zeros for a plan entry of Small(): q4 in groups of 64 for the last one, f32 elsewhere. */
  function Blank(e: PlanEntry, last: bool): Tensor {
    if last then Tensor(e.name, [64, 64], DTYPE_Q4, Zeros(2304), 64)
    else Tensor(e.name, e.shape, DTYPE_F32, Zeros(if |e.shape| == 1 then 256 else 16384), 0)
  }

  function Blanks(plan: seq<PlanEntry>): (ts: seq<Tensor>)
    ensures |ts| == |plan|
  {
    seq(|plan|, i requires 0 <= i < |plan| => Blank(plan[i], i == |plan| - 1))
  }

  lemma {:induction false} SmallIsAccepted()
    ensures Accepted(Small())
  {
    AcceptedIff(Small());
  }

  predicate SmallShape(s: Shape) {
    s == [64] || s == [64, 64]
  }

  lemma {:induction false} LayerShapes(k: nat)
    requires k < 9
    ensures SmallShape(LayerEntries(Small(), 0)[k].shape)
  {
    hide LayerName;
  }

  lemma {:induction false} PlanShapes(i: nat)
    requires i < |NamePlan(Small())|
    ensures |NamePlan(Small())| == 12
    ensures SmallShape(NamePlan(Small())[i].shape)
    ensures i == 11 ==> NamePlan(Small())[i] == PlanEntry("output.weight", [64, 64])
  {
    if 1 <= i <= 9 {
      EntryOfLayer(Small(), 1, i - 1);
      LayerShapes(i - 1);
    }
    hide LayerEntries;
    hide EntriesUpTo;
  }

  lemma {:induction false} SmallProducts()
    ensures Product([64]) == 64 && Product([64, 64]) == 4096
  {
    ProductOfOne([64]);
    ProductOfTwo([64, 64]);
  }

  lemma {:induction false} BlankMatches(e: PlanEntry, last: bool)
    requires SmallShape(e.shape) && (last ==> e == PlanEntry("output.weight", [64, 64]))
    ensures Matches(e, Blank(e, last))
    ensures |Blank(e, last).data| <= 16384
  {
    SmallProducts();
    hide Product;
    if last {
      assert Q4Eligible(e.name, e.shape) by {
        assert e.name[0] == 'o';
      }
    }
  }

  lemma {:induction false} OffsetsBelow(ts: seq<Tensor>, i: nat)
    requires i <= |ts| && forall k :: 0 <= k < |ts| ==> |ts[k].data| <= 16384
    ensures DataOffset(ts, i) <= 16384 * i
  {
    if i > 0 {
      OffsetsBelow(ts, i - 1);
    }
  }

  lemma {:induction false} BlankFits(e: PlanEntry, last: bool, offset: nat)
    requires SmallShape(e.shape) && NameFits(e.name) && offset <= 1000000
    ensures AllFit(DescriptorFields(Blank(e, last), offset))
  {
    hide NameFits;
    hide NameField;
    var t := Blank(e, last);
    assert Padded([64]) == [64, 1, 1, 1] && Padded([64, 64]) == [64, 64, 1, 1];
  }

  lemma {:induction false} BlanksFit(ts: seq<Tensor>)
    requires ts == Blanks(NamePlan(Small()))
    ensures |ts| == 12 && AllMatch(NamePlan(Small()), ts) && NamesFit(ts) && DescriptorsFit(ts)
    ensures DataOffset(ts, 12) <= 1000000 && ts[11].flags == 64
  {
    var plan := NamePlan(Small());
    PlanNamesFit(Small());
    assert |Digits(0)| <= MAX_LAYER_DIGITS;
    hide NamePlan;
    hide Digits;
    forall i | 0 <= i < |ts|
      ensures |plan| == 12 && Matches(plan[i], ts[i]) && |ts[i].data| <= 16384 && SmallShape(plan[i].shape) && NameFits(ts[i].name)
    {
      PlanShapes(i);
      BlankMatches(plan[i], i == 11);
      assert EntryFits(plan[i]);
    }
    assert |plan| == 12 by {
      PlanShapes(0);
    }
    OffsetsBelow(ts, 12);
    forall i | 0 <= i < |ts|
      ensures DescriptorFits(ts, i)
    {
      OffsetsBelow(ts, i);
      BlankFits(plan[i], i == 11, DataOffset(ts, i));
    }
  }

  lemma {:induction false} SmallFileFits(ts: seq<Tensor>)
    requires |ts| == 12 && DescriptorsFit(ts) && DataOffset(ts, 12) <= 1000000
    ensures FileFits(Small(), ts, false)
  {
    hide DescriptorsFit;
    hide DataOffset;
  }

  /** An accepted configuration and a list that is built: the q4 tensor is written in groups of 64 and read
      back in groups of 32. */
  lemma {:induction false} GroupSizeIsLost()
    ensures var ts := Blanks(NamePlan(Small()));
            && Accepted(Small()) && |ts| == 12 && ts[11].dtype == DTYPE_Q4 && EffectiveGroup(ts[11].flags) == 64
            && Build(Small(), ts, false).Built?
            && FileReadsBack(Small(), ts, Reader.Parse(Build(Small(), ts, false).file))
            && Reader.Parse(Build(Small(), ts, false).file).value.tensors[11].GroupSize() == 32
  {
    var ts := Blanks(NamePlan(Small()));
    hide NamePlan;
    hide AllMatch;
    hide NamesFit;
    hide DescriptorsFit;
    hide FileFits;
    hide File;
    hide Reader.Parse;
    SmallIsAccepted();
    BlanksFit(ts);
    SmallFileFits(ts);
    assert ts[11].dtype == DTYPE_Q4;
    hide Blanks;
    assert Build(Small(), ts, false).Built?;
    hide Build;
    GroupSizeSurvivesIff(Small(), ts, false, 11);
    FileRoundTrip(Small(), ts, false);
  }
}
