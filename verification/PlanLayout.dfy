module PlanLayout {
  // The whole generated plan, command by command: what stands at which position.

  import opened Common
  import opened Tally
  import opened Decimal
  import opened ExecutionPlan
  import opened PlannerInvariant
  import opened PlannerCounts
  import opened PlannerOrder
  import opened WireNames
  import PA = PlannerAcceptance

  // -------------------------------------------------------------- generators

  ghost predicate At(g: Gen, size: int, fence: int) {
    |g.cmds| == size && g.nextId == size + 1 && g.nextFence == fence
  }

  lemma {:induction false} EachAt(g: Gen, layer: int, spec: OpSpec, fence: int, dep: int, n: nat, t: nat)
    requires g.nextId == |g.cmds| + 1
    ensures At(OnEach(g, layer, spec, fence, dep, n), |g.cmds| + n, g.nextFence)
    ensures t < n ==> OnEach(g, layer, spec, fence, dep, n).cmds[|g.cmds| + t] == ExecCommand(|g.cmds| + t + 1, t, layer, spec, fence, dep)
  {
    if n > 0 {
      EachAt(g, layer, spec, fence, dep, n - 1, t);
    }
  }

  /** A broadcast puts the same command on every tile, under one new fence. */
  lemma {:induction false} BroadcastAt(g: Gen, layer: int, spec: OpSpec, dep: int, tiles: nat, t: nat)
    requires g.nextId == |g.cmds| + 1
    ensures Prefix(g.cmds, Broadcast(g, layer, spec, dep, tiles).cmds)
    ensures At(Broadcast(g, layer, spec, dep, tiles), |g.cmds| + tiles, g.nextFence + 1)
    ensures t < tiles ==>
              Broadcast(g, layer, spec, dep, tiles).cmds[|g.cmds| + t] == ExecCommand(|g.cmds| + t + 1, t, layer, spec, g.nextFence, dep)
  {
    hide OnEach;
    var h := g.(nextFence := g.nextFence + 1);
    EachAt(h, layer, spec, g.nextFence, dep, tiles, t);
    EachPrefix(h, layer, spec, g.nextFence, dep, tiles);
  }

  lemma {:induction false} ChainToAt(g: Gen, tile: int, layer: int, specs: seq<OpSpec>, n: nat, k: nat)
    requires g.nextId == |g.cmds| + 1 && n <= |specs|
    ensures At(ChainTo(g, tile, layer, specs, n), |g.cmds| + n, g.nextFence + n)
    ensures k < n ==>
              ChainTo(g, tile, layer, specs, n).cmds[|g.cmds| + k]
              == ExecCommand(|g.cmds| + k + 1, tile, layer, specs[k], g.nextFence + k, if k == 0 then 0 else g.nextFence + k - 1)
  {
    if n > 0 {
      ChainToAt(g, tile, layer, specs, n - 1, k);
    }
  }

  /** A chain: every command under a new fence, waiting for the fence before it. */
  lemma {:induction false} WholeChainAt(g: Gen, tile: int, layer: int, specs: seq<OpSpec>, k: nat)
    requires g.nextId == |g.cmds| + 1
    ensures Prefix(g.cmds, Chain(g, tile, layer, specs).cmds)
    ensures At(Chain(g, tile, layer, specs), |g.cmds| + |specs|, g.nextFence + |specs|)
    ensures k < |specs| ==>
              Chain(g, tile, layer, specs).cmds[|g.cmds| + k]
              == ExecCommand(|g.cmds| + k + 1, tile, layer, specs[k], g.nextFence + k, if k == 0 then 0 else g.nextFence + k - 1)
  {
    hide ChainTo;
    ChainToAt(g, tile, layer, specs, |specs|, k);
    ChainPrefix(g, tile, layer, specs, |specs|);
  }

  // -------------------------------------------------------------- load phase

  function LoadOf(t: PlanTensor, position: nat): ExecCommand {
    ExecCommand(position + 1, t.owner.GetOr(0), -1,
                OpSpec(LoadPhase, LoadTensor, [t.name], [], [Buffer("TENSOR", t.packedBytes, t.dtype)], [], [], 0), position + 1, 0)
  }

  function ValidateOf(t: PlanTensor, position: nat): ExecCommand {
    ExecCommand(position + 1, t.owner.GetOr(0), -1,
                OpSpec(ValidatePhase, ValidateTensor, [t.name], [Buffer("TENSOR", t.packedBytes, t.dtype)], [], [], [], 0), position + 1, 0)
  }

  ghost predicate AllOwned(ts: seq<PlanTensor>, tile: int) {
    forall i :: 0 <= i < |ts| ==> OwnerOf(ts[i]) == tile
  }

  lemma {:induction false} LoadsAt(g: Gen, tile: int, ts: seq<PlanTensor>, n: nat, k: nat)
    requires At(g, |g.cmds|, |g.cmds| + 1) && n <= |ts| && AllOwned(ts, tile)
    ensures At(LoadsTo(g, tile, ts, n), |g.cmds| + n, |g.cmds| + n + 1) && Prefix(g.cmds, LoadsTo(g, tile, ts, n).cmds)
    ensures k < n ==> LoadsTo(g, tile, ts, n).cmds[|g.cmds| + k] == LoadOf(ts[k], |g.cmds| + k)
  {
    if n > 0 {
      LoadsAt(g, tile, ts, n - 1, k);
    }
  }

  lemma {:induction false} ValidatesAt(g: Gen, tile: int, ts: seq<PlanTensor>, n: nat, k: nat)
    requires At(g, |g.cmds|, |g.cmds| + 1) && n <= |ts| && AllOwned(ts, tile)
    ensures At(ValidatesTo(g, tile, ts, n), |g.cmds| + n, |g.cmds| + n + 1) && Prefix(g.cmds, ValidatesTo(g, tile, ts, n).cmds)
    ensures k < n ==> ValidatesTo(g, tile, ts, n).cmds[|g.cmds| + k] == ValidateOf(ts[k], |g.cmds| + k)
  {
    if n > 0 {
      ValidatesAt(g, tile, ts, n - 1, k);
    }
  }

  /** One tile: all loads, then all validations, in the order given. */
  lemma {:induction false} TileAt(g: Gen, tile: int, ts: seq<PlanTensor>, k: nat)
    requires At(g, |g.cmds|, |g.cmds| + 1) && AllOwned(ts, tile)
    ensures At(LoadTile(g, tile, ts), |g.cmds| + 2 * |ts|, |g.cmds| + 2 * |ts| + 1) && Prefix(g.cmds, LoadTile(g, tile, ts).cmds)
    ensures k < |ts| ==>
              && LoadTile(g, tile, ts).cmds[|g.cmds| + k] == LoadOf(ts[k], |g.cmds| + k)
              && LoadTile(g, tile, ts).cmds[|g.cmds| + |ts| + k] == ValidateOf(ts[k], |g.cmds| + |ts| + k)
  {
    hide LoadOf;
    hide ValidateOf;
    hide LoadsTo;
    hide ValidatesTo;
    LoadsAt(g, tile, ts, |ts|, k);
    ValidatesAt(LoadsTo(g, tile, ts, |ts|), tile, ts, |ts|, k);
  }

  // --------------------------------------------------------- who comes before

  function Below(owner: int): PlanTensor -> int {
    (t: PlanTensor) => if OwnerOf(t) < owner then 1 else 0
  }

  function Owned(owner: int): PlanTensor -> int {
    (t: PlanTensor) => if OwnerOf(t) == owner then 1 else 0
  }

  function Sooner(owner: int, id: int): PlanTensor -> int {
    (t: PlanTensor) => if OwnerOf(t) == owner && t.tensorId < id then 1 else 0
  }

  function Tied(owner: int, id: int): PlanTensor -> int {
    (t: PlanTensor) => if OwnerOf(t) == owner && t.tensorId == id then 1 else 0
  }

  /** How many tensors of the same owner come before tensor i: those with a smaller id, and those with the same id
      that are listed earlier. */
  function Rank(ts: seq<PlanTensor>, i: nat): int
    requires i < |ts|
  {
    Total(ts, Sooner(OwnerOf(ts[i]), ts[i].tensorId)) + Total(ts[..i], Tied(OwnerOf(ts[i]), ts[i].tensorId))
  }

  lemma {:induction false} OwnedNext(ts: seq<PlanTensor>, tile: int)
    requires |ts| > 0
    ensures var init, x := ts[..|ts| - 1], ts[|ts| - 1];
            Sort(OwnedBy(ts, tile), IdOrder())
            == if OwnerOf(x) == tile then Insert(Sort(OwnedBy(init, tile), IdOrder()), x, IdOrder()) else Sort(OwnedBy(init, tile), IdOrder())
  {
    hide Insert;
    var init, x := ts[..|ts| - 1], ts[|ts| - 1];
    if OwnerOf(x) == tile {
      assert OwnedBy(ts, tile)[..|OwnedBy(init, tile)|] == OwnedBy(init, tile);
    } else {
      assert OwnedBy(ts, tile) == OwnedBy(init, tile) + [] == OwnedBy(init, tile);
    }
  }

  lemma {:induction false} IdsOrder()
    ensures TotalOrder(IdOrder())
  {
  }

  /** The tensors of a tile that may stand before one of them. */
  lemma {:induction false} UpToIs(ts: seq<PlanTensor>, tile: int, x: PlanTensor)
    ensures Total(Sort(OwnedBy(ts, tile), IdOrder()), UpTo(IdOrder(), x))
         == Total(ts, Sooner(tile, x.tensorId)) + Total(ts, Tied(tile, x.tensorId))
  {
    var f, h := UpTo(IdOrder(), x), OwnerIn({tile}, UpTo(IdOrder(), x));
    MineSorted(ts, tile, f);
    TotalAdd(ts, Sooner(tile, x.tensorId), Tied(tile, x.tensorId), h);
    hide Total;
  }

  /** The sorted list of a tile's tensors holds tensor i at its rank. */
  lemma {:induction false} SortedAtRank(ts: seq<PlanTensor>, tile: int, i: nat)
    requires i < |ts| && OwnerOf(ts[i]) == tile
    ensures 0 <= Rank(ts, i) < |OwnedBy(ts, tile)| && Sort(OwnedBy(ts, tile), IdOrder())[Rank(ts, i)] == ts[i]
  {
    hide *;
    var n := |ts| - 1;
    var init, x := ts[..n], ts[n];
    var before := Sort(OwnedBy(init, tile), IdOrder());
    OwnedNext(ts, tile);
    RankNext(ts, i);
    IdsOrder();
    SortOrders(OwnedBy(init, tile), IdOrder());
    assert |Sort(OwnedBy(ts, tile), IdOrder())| == |OwnedBy(ts, tile)| && |before| == |OwnedBy(init, tile)|;
    if i == n {
      UpToIs(init, tile, x);
      NewAt(before, x, IdOrder());
    } else {
      SortedAtRank(init, tile, i);
      if OwnerOf(x) == tile {
        IdOrderIs(ts[i], x);
        OldAt(before, x, Rank(init, i), IdOrder());
      }
    }
  }

  lemma {:induction false} IdOrderIs(a: PlanTensor, b: PlanTensor)
    ensures IdOrder()(a, b) <==> a.tensorId <= b.tensorId
  {
  }

  lemma {:induction false} RankNext(ts: seq<PlanTensor>, i: nat)
    requires i < |ts|
    ensures var n := |ts| - 1;
            var init, x, o, id := ts[..n], ts[n], OwnerOf(ts[i]), ts[i].tensorId;
            Rank(ts, i) == if i == n then Total(init, Sooner(o, id)) + Total(init, Tied(o, id))
                           else Rank(init, i) + if OwnerOf(x) == o && x.tensorId < id then 1 else 0
  {
    var n := |ts| - 1;
    if i < n {
      assert ts[..n][..i] == ts[..i];
    }
  }

  // ------------------------------------------------------------ owner by owner

  lemma {:induction false} OwnedSize(ts: seq<PlanTensor>, tile: int)
    ensures |OwnedBy(ts, tile)| == Total(ts, Owned(tile))
  {
    if |ts| > 0 {
      OwnedSize(ts[..|ts| - 1], tile);
    }
  }

  function OfFirst(os: seq<int>, k: nat): PlanTensor -> int
    requires k <= |os|
  {
    (t: PlanTensor) => if OwnerOf(t) in FirstOf(os, k) then 1 else 0
  }

  lemma {:induction false} OneOwnerMore(ts: seq<PlanTensor>, os: seq<int>, k: nat)
    requires 0 < k <= |os| && DistinctInts(os)
    ensures Total(ts, OfFirst(os, k)) == Total(ts, OfFirst(os, k - 1)) + Total(ts, Owned(os[k - 1]))
  {
    assert os[k - 1] !in FirstOf(os, k - 1);
    assert FirstOf(os, k) == FirstOf(os, k - 1) + {os[k - 1]};
    TotalAdd(ts, OfFirst(os, k - 1), Owned(os[k - 1]), OfFirst(os, k));
  }

  lemma {:induction false} NoOwnerYet(ts: seq<PlanTensor>, os: seq<int>)
    ensures Total(ts, OfFirst(os, 0)) == 0
  {
    TotalZero(ts, OfFirst(os, 0));
  }

  lemma {:induction false} OwnersStep(g: Gen, ts: seq<PlanTensor>, os: seq<int>, k: nat)
    requires k < |os|
    ensures LoadOwners(g, ts, os, k + 1) == LoadTile(LoadOwners(g, ts, os, k), os[k], Sort(OwnedBy(ts, os[k]), IdOrder()))
  {
    hide LoadTile;
  }

  lemma {:induction false} OwnersNone(g: Gen, ts: seq<PlanTensor>, os: seq<int>)
    ensures LoadOwners(g, ts, os, 0) == g
  {
  }

  lemma {:induction false} SortedOwned(ts: seq<PlanTensor>, tile: int)
    ensures AllOwned(Sort(OwnedBy(ts, tile), IdOrder()), tile)
    ensures |Sort(OwnedBy(ts, tile), IdOrder())| == |OwnedBy(ts, tile)| == Total(ts, Owned(tile))
  {
    OwnedSize(ts, tile);
    MineSorted(ts, tile, Owned(tile));
    hide Total;
    hide Sort;
  }

  lemma {:induction false} OwnersSize(g: Gen, ts: seq<PlanTensor>, os: seq<int>, k: nat)
    requires At(g, |g.cmds|, |g.cmds| + 1) && k <= |os| && DistinctInts(os)
    ensures var size := |g.cmds| + 2 * Total(ts, OfFirst(os, k));
            At(LoadOwners(g, ts, os, k), size, size + 1)
  {
    hide *;
    if k == 0 {
      NoOwnerYet(ts, os);
      OwnersNone(g, ts, os);
    } else {
      OwnersSize(g, ts, os, k - 1);
      AtUnfolds(LoadOwners(g, ts, os, k - 1), |g.cmds| + 2 * Total(ts, OfFirst(os, k - 1)));
      OwnersStep(g, ts, os, k - 1);
      SortedOwned(ts, os[k - 1]);
      TileAt(LoadOwners(g, ts, os, k - 1), os[k - 1], Sort(OwnedBy(ts, os[k - 1]), IdOrder()), 0);
      OneOwnerMore(ts, os, k);
    }
  }

  lemma {:induction false} PrefixTransitive(a: seq<ExecCommand>, b: seq<ExecCommand>, c: seq<ExecCommand>)
    requires Prefix(a, b) && Prefix(b, c)
    ensures Prefix(a, c)
  {
  }

  lemma {:induction false} PrefixReflexive(a: seq<ExecCommand>)
    ensures Prefix(a, a)
  {
  }

  lemma {:induction false} OwnersPrefix(g: Gen, ts: seq<PlanTensor>, os: seq<int>, j: nat, k: nat)
    requires At(g, |g.cmds|, |g.cmds| + 1) && j <= k <= |os| && DistinctInts(os)
    ensures Prefix(LoadOwners(g, ts, os, j).cmds, LoadOwners(g, ts, os, k).cmds)
  {
    hide *;
    if j == k {
      PrefixReflexive(LoadOwners(g, ts, os, j).cmds);
    } else {
      OwnersPrefix(g, ts, os, j, k - 1);
      OwnersSize(g, ts, os, k - 1);
      AtUnfolds(LoadOwners(g, ts, os, k - 1), |g.cmds| + 2 * Total(ts, OfFirst(os, k - 1)));
      OwnersStep(g, ts, os, k - 1);
      SortedOwned(ts, os[k - 1]);
      TileAt(LoadOwners(g, ts, os, k - 1), os[k - 1], Sort(OwnedBy(ts, os[k - 1]), IdOrder()), 0);
      PrefixTransitive(LoadOwners(g, ts, os, j).cmds, LoadOwners(g, ts, os, k - 1).cmds, LoadOwners(g, ts, os, k).cmds);
    }
  }

  lemma {:induction false} AtUnfolds(g: Gen, size: int)
    requires At(g, size, size + 1)
    ensures At(g, |g.cmds|, |g.cmds| + 1) && |g.cmds| == size
  {
  }

  /** The tensors of the owners before the m-th are those with a smaller owner. */
  lemma {:induction false} FirstAreBelow(ts: seq<PlanTensor>, os: seq<int>, m: nat)
    requires m < |os| && DistinctInts(os) && Ordered(os, IntOrder()) && forall t :: t in ts ==> OwnerOf(t) in os
    ensures Total(ts, OfFirst(os, m)) == Total(ts, Below(os[m]))
  {
    forall i | 0 <= i < |ts|
      ensures OfFirst(os, m)(ts[i]) == Below(os[m])(ts[i])
    {
      assert ts[i] in ts;
      var k :| 0 <= k < |os| && os[k] == OwnerOf(ts[i]);
      if k < m {
        assert IntOrder()(os[k], os[m]) && os[k] in FirstOf(os, m);
      } else {
        assert os[k] >= os[m] by {
          assert k == m || IntOrder()(os[m], os[k]);
        }
        assert os[k] !in FirstOf(os, m);
      }
    }
    TotalSame(ts, OfFirst(os, m), Below(os[m]));
  }

  /** Where the load phase puts tensor i: behind the loads and validations of smaller owners, by rank. */
  function LoadPosition(ts: seq<PlanTensor>, i: nat): int
    requires i < |ts|
  {
    2 * Total(ts, Below(OwnerOf(ts[i]))) + Rank(ts, i)
  }

  function ValidatePosition(ts: seq<PlanTensor>, i: nat): int
    requires i < |ts|
  {
    LoadPosition(ts, i) + Total(ts, Owned(OwnerOf(ts[i])))
  }

  lemma {:induction false} SortedOwners(ts: seq<PlanTensor>)
    ensures var os := Sort(Owners(ts), IntOrder());
            DistinctInts(os) && Ordered(os, IntOrder()) && forall t :: t in ts ==> OwnerOf(t) in os
  {
    var owners, os := Owners(ts), Sort(Owners(ts), IntOrder());
    OwnersDistinct(ts);
    SortPermutes(owners, IntOrder());
    DistinctPermuted(os, owners);
    assert TotalOrder(IntOrder());
    SortOrders(owners, IntOrder());
    forall t | t in ts
      ensures OwnerOf(t) in os
    {
      assert OwnerOf(t) in multiset(os);
    }
  }

  /** The load phase as a whole. */
  lemma {:induction false} LoadPhaseAt(ts: seq<PlanTensor>, i: nat)
    requires i < |ts|
    ensures var g, a, b := LoadAll(Gen([], 1, 1), ts), LoadPosition(ts, i), ValidatePosition(ts, i);
            0 <= a < b < |g.cmds| && g.cmds[a] == LoadOf(ts[i], a) && g.cmds[b] == ValidateOf(ts[i], b)
  {
    hide *;
    var os, tile := Sort(Owners(ts), IntOrder()), OwnerOf(ts[i]);
    SortedOwners(ts);
    assert ts[i] in ts && tile in os;
    var m: nat :| m < |os| && os[m] == tile;
    Nothing();
    OwnersSize(Gen([], 1, 1), ts, os, m);
    FirstAreBelow(ts, os, m);
    OwnersStep(Gen([], 1, 1), ts, os, m);
    OwnersPrefix(Gen([], 1, 1), ts, os, m + 1, |os|);
    BelowCounts(ts, tile);
    SortedOwned(ts, tile);
    SortedAtRank(ts, tile, i);
    var g := LoadOwners(Gen([], 1, 1), ts, os, m);
    AtUnfolds(g, 2 * Total(ts, Below(tile)));
    TileAt(g, tile, Sort(OwnedBy(ts, tile), IdOrder()), Rank(ts, i));
    PositionsUnfold(ts, i);
    LoadAllUnfolds(ts);
    AtUnfolds(LoadOwners(Gen([], 1, 1), ts, os, m + 1), 2 * Total(ts, Below(tile)) + 2 * Total(ts, Owned(tile)));
    PrefixAt(LoadOwners(Gen([], 1, 1), ts, os, m + 1).cmds, LoadAll(Gen([], 1, 1), ts).cmds, LoadPosition(ts, i));
    PrefixAt(LoadOwners(Gen([], 1, 1), ts, os, m + 1).cmds, LoadAll(Gen([], 1, 1), ts).cmds, ValidatePosition(ts, i));
  }

  lemma {:induction false} Nothing()
    ensures At(Gen([], 1, 1), 0, 1)
  {
  }

  lemma {:induction false} BelowCounts(ts: seq<PlanTensor>, owner: int)
    ensures Total(ts, Below(owner)) >= 0
  {
    if |ts| > 0 {
      BelowCounts(ts[..|ts| - 1], owner);
    }
  }

  lemma {:induction false} PositionsUnfold(ts: seq<PlanTensor>, i: nat)
    requires i < |ts|
    ensures LoadPosition(ts, i) == 2 * Total(ts, Below(OwnerOf(ts[i]))) + Rank(ts, i)
    ensures ValidatePosition(ts, i) == LoadPosition(ts, i) + Total(ts, Owned(OwnerOf(ts[i])))
  {
    hide Rank;
    hide Total;
  }

  lemma {:induction false} LoadAllUnfolds(ts: seq<PlanTensor>)
    ensures var os := Sort(Owners(ts), IntOrder());
            LoadAll(Gen([], 1, 1), ts) == LoadOwners(Gen([], 1, 1), ts, os, |os|)
  {
    hide LoadOwners;
    hide Sort;
    hide Owners;
  }

  lemma {:induction false} LoadSize(ts: seq<PlanTensor>)
    ensures At(LoadAll(Gen([], 1, 1), ts), 2 * |ts|, 2 * |ts| + 1)
  {
    hide *;
    var os := Sort(Owners(ts), IntOrder());
    Nothing();
    SortedOwners(ts);
    OwnersSize(Gen([], 1, 1), ts, os, |os|);
    AllOwners(ts, os);
    LoadAllUnfolds(ts);
  }

  lemma {:induction false} AllOwners(ts: seq<PlanTensor>, os: seq<int>)
    requires forall t :: t in ts ==> OwnerOf(t) in os
    ensures Total(ts, OfFirst(os, |os|)) == |ts|
  {
    forall i | 0 <= i < |ts|
      ensures OfFirst(os, |os|)(ts[i]) == 1
    {
      assert ts[i] in ts;
      var k :| 0 <= k < |os| && os[k] == OwnerOf(ts[i]);
    }
    CountIsLength(ts, OfFirst(os, |os|), 1);
  }

  /** The order the load phase works in: owner, then id, then place in the report. */
  ghost predicate Precedes(ts: seq<PlanTensor>, i: nat, j: nat)
    requires i < |ts| && j < |ts|
  {
    OwnerOf(ts[i]) < OwnerOf(ts[j])
    || (OwnerOf(ts[i]) == OwnerOf(ts[j]) && (ts[i].tensorId < ts[j].tensorId || (ts[i].tensorId == ts[j].tensorId && i < j)))
  }

  lemma {:induction false} CountGrows(ts: seq<PlanTensor>, f: PlanTensor -> int, i: nat, j: nat)
    requires i < j <= |ts| && f(ts[i]) == 1 && forall t :: f(t) >= 0
    ensures 0 <= Total(ts[..i], f) < Total(ts[..j], f)
  {
    hide Total;
    TotalTake(ts, f, j - 1);
    if i < j - 1 {
      CountGrows(ts, f, i, j - 1);
    } else {
      NotNegative(ts[..i], f);
    }
  }

  lemma {:induction false} NotNegative(ts: seq<PlanTensor>, f: PlanTensor -> int)
    requires forall t :: f(t) >= 0
    ensures Total(ts, f) >= 0
  {
    if |ts| > 0 {
      NotNegative(ts[..|ts| - 1], f);
    }
  }

  lemma {:induction false} RankGrows(ts: seq<PlanTensor>, i: nat, j: nat)
    requires i < |ts| && j < |ts| && OwnerOf(ts[i]) == OwnerOf(ts[j])
    requires ts[i].tensorId < ts[j].tensorId || (ts[i].tensorId == ts[j].tensorId && i < j)
    ensures Rank(ts, i) < Rank(ts, j)
  {
    hide Total;
    var o, a, b := OwnerOf(ts[i]), ts[i].tensorId, ts[j].tensorId;
    if a == b {
      CountGrows(ts, Tied(o, a), i, j);
    } else {
      CountGrows(ts, Tied(o, a), i, |ts|);
      assert ts[..|ts|] == ts;
      NotNegative(ts[..j], Tied(o, b));
      var both := (t: PlanTensor) => Sooner(o, a)(t) + Tied(o, a)(t);
      TotalAdd(ts, Sooner(o, a), Tied(o, a), both);
      TotalMonotone(ts, both, Sooner(o, b));
    }
  }

  lemma {:induction false} OwnersApart(ts: seq<PlanTensor>, a: int, b: int)
    requires a < b
    ensures Total(ts, Below(a)) + Total(ts, Owned(a)) <= Total(ts, Below(b))
  {
    hide Total;
    var both := (t: PlanTensor) => Below(a)(t) + Owned(a)(t);
    TotalAdd(ts, Below(a), Owned(a), both);
    TotalMonotone(ts, both, Below(b));
  }

  /** Positions follow that order, so no two tensors share one, and on a tile every load precedes every validation. */
  lemma {:induction false} PositionsFollow(ts: seq<PlanTensor>, i: nat, j: nat)
    requires i < |ts| && j < |ts| && Precedes(ts, i, j)
    ensures LoadPosition(ts, i) < LoadPosition(ts, j) && ValidatePosition(ts, i) < ValidatePosition(ts, j)
    ensures if OwnerOf(ts[i]) == OwnerOf(ts[j]) then LoadPosition(ts, j) < ValidatePosition(ts, i)
            else ValidatePosition(ts, i) < LoadPosition(ts, j)
  {
    var a, b := OwnerOf(ts[i]), OwnerOf(ts[j]);
    PositionsUnfold(ts, i);
    PositionsUnfold(ts, j);
    RankInside(ts, i);
    RankInside(ts, j);
    hide LoadPosition;
    hide ValidatePosition;
    hide Rank;
    hide Total;
    if a == b {
      RankGrows(ts, i, j);
    } else {
      OwnersApart(ts, a, b);
    }
  }

  lemma {:induction false} RankInside(ts: seq<PlanTensor>, i: nat)
    requires i < |ts|
    ensures 0 <= Rank(ts, i) < Total(ts, Owned(OwnerOf(ts[i])))
  {
    SortedAtRank(ts, OwnerOf(ts[i]), i);
    OwnedSize(ts, OwnerOf(ts[i]));
    hide *;
  }

  // ----------------------------------------------------------- setup to query

  lemma {:induction false} AtSplits(g: Gen, size: int, fence: int)
    requires At(g, size, fence)
    ensures |g.cmds| == size && g.nextId == |g.cmds| + 1 && g.nextFence == fence
  {
  }

  /** Barriers and traces of the setup. */
  lemma {:induction false} SetupAt(p: PlanInput, t: nat)
    ensures var n, tiles := |p.tensors|, p.Tiles();
            && At(SetupState(p), 2 * n + 2 * tiles, 2 * n + 3) && Prefix(LoadAll(Gen([], 1, 1), p.tensors).cmds, SetupState(p).cmds)
            && (t < tiles ==>
                  && SetupState(p).cmds[2 * n + t] == ExecCommand(2 * n + t + 1, t, -1, BarrierSpec(p), 2 * n + 1, 0)
                  && SetupState(p).cmds[2 * n + tiles + t] == ExecCommand(2 * n + tiles + t + 1, t, -1, TraceSpec(), 2 * n + 2, 2 * n + 1))
  {
    hide *;
    var n, tiles := |p.tensors|, p.Tiles();
    var load := LoadAll(Gen([], 1, 1), p.tensors);
    LoadSize(p.tensors);
    AtSplits(load, 2 * n, 2 * n + 1);
    BroadcastAt(load, -1, BarrierSpec(p), 0, tiles, t);
    var barriers := Broadcast(load, -1, BarrierSpec(p), 0, tiles);
    AtSplits(barriers, 2 * n + tiles, 2 * n + 2);
    BroadcastAt(barriers, -1, TraceSpec(), load.nextFence, tiles, t);
    SetupUnfolds(p);
    PrefixTransitive(load.cmds, barriers.cmds, SetupState(p).cmds);
    if t < tiles {
      PrefixAt(barriers.cmds, SetupState(p).cmds, 2 * n + t);
    }
  }

  lemma {:induction false} SetupUnfolds(p: PlanInput)
    ensures var load := LoadAll(Gen([], 1, 1), p.tensors);
            SetupState(p) == Broadcast(Broadcast(load, -1, BarrierSpec(p), 0, p.Tiles()), -1, TraceSpec(), load.nextFence, p.Tiles())
  {
    hide LoadAll;
    hide Broadcast;
  }

  lemma {:induction false} LayerStep(g: Gen, p: PlanInput, l: nat)
    ensures LayersTo(g, p, l + 1) == LayerTo(LayersTo(g, p, l), p, l)
    ensures var h := Chain(LayersTo(g, p, l), LayerTile(p, l), l, LayerSpecs(p, l));
            LayersTo(g, p, l + 1) == if Traced(p, l) then Broadcast(h, l, TraceSpec(), 0, p.Tiles()) else h
  {
    hide Chain;
    hide Broadcast;
    hide LayerSpecs;
    hide LayerTile;
    hide Traced;
  }

  lemma {:induction false} TracedNext(p: PlanInput, n: nat)
    ensures TracedCount(p, n + 1) == TracedCount(p, n) + (if Traced(p, n) then 1 else 0)
    ensures TracedCount(p, 0) == 0
  {
    hide Traced;
  }

  lemma {:induction false} LayersNone(g: Gen, p: PlanInput)
    ensures LayersTo(g, p, 0) == g
  {
  }

  /** Where layer l's commands start: behind 18 for every layer before it, and one trace per tile for every trace taken. */
  lemma {:induction false} LayersAt(p: PlanInput, l: nat)
    ensures var n, tiles, traced := |p.tensors|, p.Tiles(), TracedCount(p, l);
            At(LayersTo(SetupState(p), p, l), 2 * n + 2 * tiles + 18 * l + tiles * traced, 2 * n + 3 + 18 * l + traced)
  {
    hide *;
    var n, tiles := |p.tensors|, p.Tiles();
    if l == 0 {
      SetupAt(p, 0);
      LayersNone(SetupState(p), p);
      TracedNext(p, 0);
      TimesZero(tiles);
    } else {
      LayersAt(p, l - 1);
      var g, traced := LayersTo(SetupState(p), p, l - 1), TracedCount(p, l - 1);
      AtSplits(g, 2 * n + 2 * tiles + 18 * (l - 1) + tiles * traced, 2 * n + 3 + 18 * (l - 1) + traced);
      WholeChainAt(g, LayerTile(p, l - 1), l - 1, LayerSpecs(p, l - 1), 0);
      var h := Chain(g, LayerTile(p, l - 1), l - 1, LayerSpecs(p, l - 1));
      AtSplits(h, |g.cmds| + 18, g.nextFence + 18);
      BroadcastAt(h, l - 1, TraceSpec(), 0, tiles, 0);
      LayerStep(SetupState(p), p, l - 1);
      TracedNext(p, l - 1);
      TimesNext(tiles, traced);
    }
  }

  lemma {:induction false} TimesZero(t: nat)
    ensures t * 0 == 0
  {
  }

  // ------------------------------------------------- positions in the finished plan

  function LayerStart(p: PlanInput, l: nat): int {
    2 * |p.tensors| + 2 * p.Tiles() + 18 * l + p.Tiles() * (l / 4)
  }

  function LayerFence(p: PlanInput, l: nat): int {
    2 * |p.tensors| + 3 + 18 * l + l / 4
  }

  function HeadStart(p: PlanInput): int {
    2 * |p.tensors| + 2 * p.Tiles() + 18 * p.Layers() + p.Tiles() * ((p.Layers() + 3) / 4)
  }

  function HeadFence(p: PlanInput): int {
    2 * |p.tensors| + 3 + 18 * p.Layers() + (p.Layers() + 3) / 4
  }

  lemma {:induction false} LayerStartIs(p: PlanInput, l: nat)
    requires l < p.Layers()
    ensures At(LayersTo(SetupState(p), p, l), LayerStart(p, l), LayerFence(p, l))
  {
    hide At;
    hide LayersTo;
    hide TracedCount;
    hide SetupState;
    TracedEveryFour(p, l);
    LayersAt(p, l);
  }

  lemma {:induction false} HeadStartIs(p: PlanInput)
    ensures At(LayersTo(SetupState(p), p, p.Layers()), HeadStart(p), HeadFence(p))
  {
    hide At;
    hide LayersTo;
    hide TracedCount;
    hide SetupState;
    TracedEveryFour(p, p.Layers());
    LayersAt(p, p.Layers());
  }

  lemma {:induction false} LayersInPlan(p: PlanInput, l: nat)
    requires l <= p.Layers()
    ensures Prefix(LayersTo(SetupState(p), p, l).cmds, Planned(p).cmds)
  {
    hide *;
    LayersPrefix(SetupState(p), p, l, p.Layers());
    HeadPrefix(p);
    PrefixTransitive(LayersTo(SetupState(p), p, l).cmds, LayersTo(SetupState(p), p, p.Layers()).cmds, Planned(p).cmds);
  }

  lemma {:induction false} PlannedUnfolds(p: PlanInput)
    ensures var layers := LayersTo(SetupState(p), p, p.Layers());
            Planned(p) == Broadcast(Chain(layers, HeadTile(p), -1, LmHeadSpecs(p)), -1, QuerySpec(), 0, p.Tiles())
  {
    hide LoadAll;
    hide Setup;
    hide Broadcast;
    hide Chain;
    hide LayersTo;
    hide LmHeadSpecs;
    hide HeadTile;
  }

  /** Tensor i is loaded and then validated on its owner. */
  lemma {:induction false} TensorCommands(p: PlanInput, i: nat)
    requires i < |p.tensors|
    ensures var a, b := LoadPosition(p.tensors, i), ValidatePosition(p.tensors, i);
            && 0 <= a < b < 2 * |p.tensors| <= |Planned(p).cmds|
            && Planned(p).cmds[a] == LoadOf(p.tensors[i], a) && Planned(p).cmds[b] == ValidateOf(p.tensors[i], b)
  {
    hide *;
    LoadPhaseAt(p.tensors, i);
    LoadSize(p.tensors);
    var load := LoadAll(Gen([], 1, 1), p.tensors);
    AtSplits(load, 2 * |p.tensors|, 2 * |p.tensors| + 1);
    SetupAt(p, 0);
    LayersNone(SetupState(p), p);
    LayersInPlan(p, 0);
    PrefixTransitive(load.cmds, SetupState(p).cmds, Planned(p).cmds);
    PrefixAt(load.cmds, Planned(p).cmds, LoadPosition(p.tensors, i));
    PrefixAt(load.cmds, Planned(p).cmds, ValidatePosition(p.tensors, i));
    PrefixLength(load.cmds, Planned(p).cmds);
  }

  lemma {:induction false} PrefixLength(a: seq<ExecCommand>, b: seq<ExecCommand>)
    requires Prefix(a, b)
    ensures |a| <= |b|
  {
  }

  /** Then a barrier on every tile, and a trace on every tile that waits for the barrier's fence. */
  lemma {:induction false} SetupCommands(p: PlanInput, t: nat)
    requires t < p.Tiles()
    ensures var a, b := 2 * |p.tensors| + t, 2 * |p.tensors| + p.Tiles() + t;
            && a < b < |Planned(p).cmds|
            && Planned(p).cmds[a] == ExecCommand(a + 1, t, -1, OpSpec(PrefillSetup, TileBarrier, [], [], [], p.barrierRoutes, [], 0),
                                                 2 * |p.tensors| + 1, 0)
            && Planned(p).cmds[b] == ExecCommand(b + 1, t, -1, OpSpec(TracePhase, TraceSnapshot, [], [], [], [], [], 1),
                                                 2 * |p.tensors| + 2, 2 * |p.tensors| + 1)
  {
    assert BarrierSpec(p) == OpSpec(PrefillSetup, TileBarrier, [], [], [], p.barrierRoutes, [], 0);
    assert TraceSpec() == OpSpec(TracePhase, TraceSnapshot, [], [], [], [], [], 1);
    var n, tiles := |p.tensors|, p.Tiles();
    hide *;
    SetupAt(p, t);
    AtSplits(SetupState(p), 2 * n + 2 * tiles, 2 * n + 3);
    LayersNone(SetupState(p), p);
    LayersInPlan(p, 0);
    PrefixAt(SetupState(p).cmds, Planned(p).cmds, 2 * n + t);
    PrefixAt(SetupState(p).cmds, Planned(p).cmds, 2 * n + tiles + t);
  }

  /** Operation k of layer l, on the layer's tile. */
  lemma {:induction false} LayerCommandAt(p: PlanInput, l: nat, k: nat)
    requires l < p.Layers() && k < 18
    ensures 0 <= LayerStart(p, l) + k < |Planned(p).cmds|
    ensures Planned(p).cmds[LayerStart(p, l) + k]
         == ExecCommand(LayerStart(p, l) + k + 1, LayerTile(p, l), l, LayerSpecs(p, l)[k], LayerFence(p, l) + k,
                        if k == 0 then 0 else LayerFence(p, l) + k - 1)
  {
    hide *;
    var g := LayersTo(SetupState(p), p, l);
    LayerStartIs(p, l);
    AtSplits(g, LayerStart(p, l), LayerFence(p, l));
    WholeChainAt(g, LayerTile(p, l), l, LayerSpecs(p, l), k);
    var h := Chain(g, LayerTile(p, l), l, LayerSpecs(p, l));
    AtSplits(h, LayerStart(p, l) + 18, LayerFence(p, l) + 18);
    LayerPrefix(g, p, l);
    LayerStep(SetupState(p), p, l);
    LayersInPlan(p, l + 1);
    PrefixTransitive(h.cmds, LayersTo(SetupState(p), p, l + 1).cmds, Planned(p).cmds);
    PrefixAt(h.cmds, Planned(p).cmds, LayerStart(p, l) + k);
  }

  /** After every fourth layer and after the last, a trace on every tile. */
  lemma {:induction false} LayerTraceAt(p: PlanInput, l: nat, t: nat)
    requires l < p.Layers() && t < p.Tiles() && ((l + 1) % 4 == 0 || l + 1 == p.Layers())
    ensures var a := LayerStart(p, l) + 18 + t;
            && 0 <= a < |Planned(p).cmds|
            && Planned(p).cmds[a]
               == ExecCommand(a + 1, t, l, OpSpec(TracePhase, TraceSnapshot, [], [], [], [], [], 1), LayerFence(p, l) + 18, 0)
  {
    assert TraceSpec() == OpSpec(TracePhase, TraceSnapshot, [], [], [], [], [], 1);
    assert Traced(p, l);
    hide *;
    TraceInPlan(p, l, t);
  }

  lemma {:induction false} TraceInPlan(p: PlanInput, l: nat, t: nat)
    requires l < p.Layers() && t < p.Tiles() && Traced(p, l)
    ensures var a := LayerStart(p, l) + 18 + t;
            0 <= a < |Planned(p).cmds| && Planned(p).cmds[a] == ExecCommand(a + 1, t, l, TraceSpec(), LayerFence(p, l) + 18, 0)
  {
    hide *;
    var g := LayersTo(SetupState(p), p, l);
    LayerStartIs(p, l);
    AtSplits(g, LayerStart(p, l), LayerFence(p, l));
    TracedLayerAt(g, p, l, t);
    LayerStep(SetupState(p), p, l);
    LayersInPlan(p, l + 1);
    PrefixAt(LayersTo(SetupState(p), p, l + 1).cmds, Planned(p).cmds, LayerStart(p, l) + 18 + t);
  }

  lemma {:induction false} TracedLayerAt(g: Gen, p: PlanInput, l: nat, t: nat)
    requires g.nextId == |g.cmds| + 1 && Traced(p, l) && t < p.Tiles()
    ensures |g.cmds| + 18 + t < |LayerTo(g, p, l).cmds|
    ensures LayerTo(g, p, l).cmds[|g.cmds| + 18 + t] == ExecCommand(|g.cmds| + 18 + t + 1, t, l, TraceSpec(), g.nextFence + 18, 0)
  {
    var h, tiles := Chain(g, LayerTile(p, l), l, LayerSpecs(p, l)), p.Tiles();
    assert LayerTo(g, p, l) == Broadcast(h, l, TraceSpec(), 0, tiles);
    hide *;
    WholeChainAt(g, LayerTile(p, l), l, LayerSpecs(p, l), 0);
    AtSplits(h, |g.cmds| + 18, g.nextFence + 18);
    BroadcastAt(h, l, TraceSpec(), 0, tiles, t);
    AtSplits(LayerTo(g, p, l), |h.cmds| + tiles, h.nextFence + 1);
  }

  /** The three operations of the head, and the final counter query on every tile. */
  lemma {:induction false} ClosingCommands(p: PlanInput, k: nat, t: nat)
    requires k < 3
    ensures 0 <= HeadStart(p) && |Planned(p).cmds| == HeadStart(p) + 3 + p.Tiles()
    ensures Planned(p).cmds[HeadStart(p) + k]
         == ExecCommand(HeadStart(p) + k + 1, HeadTile(p), -1, LmHeadSpecs(p)[k], HeadFence(p) + k, if k == 0 then 0 else HeadFence(p) + k - 1)
    ensures t < p.Tiles() ==>
              Planned(p).cmds[HeadStart(p) + 3 + t]
              == ExecCommand(HeadStart(p) + 4 + t, t, -1, OpSpec(QueryPhase, QueryCounters, [], [], [], [], [], 0), HeadFence(p) + 3, 0)
  {
    assert QuerySpec() == OpSpec(QueryPhase, QueryCounters, [], [], [], [], [], 0);
    var tiles := p.Tiles();
    hide *;
    var layers := LayersTo(SetupState(p), p, p.Layers());
    HeadStartIs(p);
    AtSplits(layers, HeadStart(p), HeadFence(p));
    WholeChainAt(layers, HeadTile(p), -1, LmHeadSpecs(p), k);
    var head := Chain(layers, HeadTile(p), -1, LmHeadSpecs(p));
    AtSplits(head, HeadStart(p) + 3, HeadFence(p) + 3);
    BroadcastAt(head, -1, QuerySpec(), 0, tiles, t);
    PlannedUnfolds(p);
    AtSplits(Planned(p), HeadStart(p) + 3 + tiles, HeadFence(p) + 4);
    PrefixAt(head.cmds, Planned(p).cmds, HeadStart(p) + k);
  }

  // ------------------------------------------------------- what a layer consists of

  function LayerOperation(k: nat): string {
    match k
    case 0 => "EXEC_RMSNORM"
    case 1 => "EXEC_MATMUL"
    case 2 => "EXEC_MATMUL"
    case 3 => "EXEC_MATMUL"
    case 4 => "EXEC_ROPE"
    case 5 => "EXEC_ROPE"
    case 6 => "KV_APPEND"
    case 7 => "KV_READ"
    case 8 => "EXEC_ATTENTION"
    case 9 => "EXEC_MATMUL"
    case 10 => "EXEC_RESIDUAL"
    case 11 => "EXEC_RMSNORM"
    case 12 => "EXEC_MATMUL"
    case 13 => "EXEC_MATMUL"
    case 14 => "EXEC_SWIGLU"
    case 15 => "EXEC_MATMUL"
    case 16 => "EXEC_RESIDUAL"
    case _ => "TILE_BARRIER"
  }

  /** The weight an operation works with; most have none. */
  function LayerWeight(k: nat): string {
    match k
    case 0 => ".attention_norm.weight"
    case 1 => ".attention.wq.weight"
    case 2 => ".attention.wk.weight"
    case 3 => ".attention.wv.weight"
    case 9 => ".attention.wo.weight"
    case 11 => ".ffn_norm.weight"
    case 12 => ".feed_forward.w1.weight"
    case 13 => ".feed_forward.w3.weight"
    case 15 => ".feed_forward.w2.weight"
    case _ => ""
  }

  /** A buffer of activations: one byte each in the quantised types, four otherwise. */
  function Activations(p: PlanInput, region: string, n: int): Buffer {
    Buffer(region, if p.dtype == "q8" || p.dtype == "q4" then n else 4 * n, p.dtype)
  }

  function LayerInputs(p: PlanInput, k: nat): seq<Buffer> {
    var act, ffn := Activations(p, "STAGING", p.dModel), Activations(p, "STAGING", p.ffnHidden);
    if k == 7 then [Activations(p, "KV_CACHE", p.dModel)]
    else if k == 10 || k == 16 then [act, act]
    else if k == 14 then [ffn, ffn]
    else if k == 15 then [ffn]
    else if k == 17 then []
    else [act]
  }

  function LayerOutputs(p: PlanInput, k: nat): seq<Buffer> {
    var act, ffn := Activations(p, "STAGING", p.dModel), Activations(p, "STAGING", p.ffnHidden);
    if k == 6 then [Activations(p, "KV_CACHE", p.dModel)]
    else if k == 12 || k == 13 || k == 14 then [ffn]
    else if k == 17 then []
    else [act]
  }

  /** The routes an operation needs under the placement policies that split it. */
  function LayerRoutes(p: PlanInput, k: nat): seq<int> {
    if k == 8 && p.policy == "head_wise" then p.partialRoutes
    else if k == 10 && p.policy == "layer_wise" then p.sendRoutes
    else if k == 15 && p.policy == "row_split" then p.partialRoutes
    else []
  }

  function StepPhase(p: PlanInput, k: nat): string {
    if k == 6 then "KV_APPEND" else if k == 7 then "KV_READ" else if p.prefill then "PREFILL_EXECUTION_PLAN" else "DECODE_STEP_PLAN"
  }

  /** Whether an operation works with a weight. */
  predicate Weighs(k: nat) {
    k == 0 || k == 1 || k == 2 || k == 3 || k == 9 || k == 11 || k == 12 || k == 13 || k == 15
  }

  ghost predicate NamedLike(p: PlanInput, k: nat, s: OpSpec) {
    OpName(s.op) == LayerOperation(k) && PhaseName(s.phase) == StepPhase(p, k)
  }

  ghost predicate WeighsLike(l: nat, k: nat, s: OpSpec) {
    s.deps == if Weighs(k) then ["layers." + Digits(l) + LayerWeight(k)] else []
  }

  ghost predicate BufferedLike(p: PlanInput, k: nat, s: OpSpec) {
    && s.inputs == LayerInputs(p, k) && s.outputs == LayerOutputs(p, k)
    && s.routes == LayerRoutes(p, k) && s.reductions == (if k == 8 && p.policy == "head_wise" then [1] else []) && s.traceFlags == 0
  }

  lemma {:induction false} AttentionNames(p: PlanInput, l: nat, k: nat)
    requires k < 11
    ensures NamedLike(p, k, AttentionSpecs(p, l)[k])
  {
    hide Weight;
    hide DtypeBytes;
  }

  lemma {:induction false} AttentionWeights(p: PlanInput, l: nat, k: nat)
    requires k < 11
    ensures WeighsLike(l, k, AttentionSpecs(p, l)[k])
  {
    hide Digits;
  }

  lemma {:induction false} AttentionBuffers(p: PlanInput, l: nat, k: nat)
    requires k < 11
    ensures BufferedLike(p, k, AttentionSpecs(p, l)[k])
  {
    hide Weight;
  }

  lemma {:induction false} FfnNames(p: PlanInput, l: nat, k: nat)
    requires k < 7
    ensures NamedLike(p, 11 + k, FfnSpecs(p, l)[k])
  {
    hide Weight;
    hide DtypeBytes;
  }

  lemma {:induction false} FfnWeights(p: PlanInput, l: nat, k: nat)
    requires k < 7
    ensures WeighsLike(l, 11 + k, FfnSpecs(p, l)[k])
  {
    hide Digits;
  }

  lemma {:induction false} FfnBuffers(p: PlanInput, l: nat, k: nat)
    requires k < 7
    ensures BufferedLike(p, 11 + k, FfnSpecs(p, l)[k])
  {
    hide Weight;
  }

  lemma {:induction false} LayerSpecMeans(p: PlanInput, l: nat, k: nat)
    requires k < 18
    ensures var s := LayerSpecs(p, l)[k];
            NamedLike(p, k, s) && WeighsLike(l, k, s) && BufferedLike(p, k, s)
  {
    hide NamedLike;
    hide WeighsLike;
    hide BufferedLike;
    hide AttentionSpecs;
    hide FfnSpecs;
    if k < 11 {
      AttentionNames(p, l, k);
      AttentionWeights(p, l, k);
      AttentionBuffers(p, l, k);
    } else {
      FfnNames(p, l, k - 11);
      FfnWeights(p, l, k - 11);
      FfnBuffers(p, l, k - 11);
    }
  }

  function HeadOperation(k: nat): string {
    if k == 0 then "EXEC_RMSNORM" else if k == 1 then "EXEC_MATMUL" else "EXEC_SOFTMAX"
  }

  /** The head: output norm, logits, softmax; the logits take the reduce routes when the head is split. */
  lemma {:induction false} HeadSpecMeans(p: PlanInput, k: nat)
    requires k < 3
    ensures var s, act, logits := LmHeadSpecs(p)[k], Activations(p, "STAGING", p.dModel), Activations(p, "STAGING", p.vocabSize);
            && OpName(s.op) == HeadOperation(k)
            && PhaseName(s.phase) == (if p.prefill then "PREFILL_EXECUTION_PLAN" else "DECODE_STEP_PLAN")
            && s.deps == (if k == 0 then ["norm.weight"] else if k == 1 then ["lm_head.weight"] else [])
            && s.inputs == [if k == 2 then logits else act] && s.outputs == [if k == 0 then act else logits]
            && s.routes == (if k == 1 && p.policy == "lm_head_split" then p.logitsRoutes else []) && s.reductions == []
            && s.traceFlags == if k == 2 then 2 else 0
  {
  }

  // ------------------------------------------------------------- on which tile

  /** Tensor i is the last one of that name. */
  ghost predicate LastNamed(ts: seq<PlanTensor>, name: string, i: nat) {
    i < |ts| && ts[i].name == name && forall j :: i < j < |ts| ==> ts[j].name != name
  }

  ghost predicate Unnamed(ts: seq<PlanTensor>, name: string) {
    forall i :: 0 <= i < |ts| ==> ts[i].name != name
  }

  lemma {:induction false} FindMeans(ts: seq<PlanTensor>, name: string)
    requires name != ""
    ensures forall i: nat :: LastNamed(ts, name, i) ==> FindByName(ts, name) == Some(ts[i])
    ensures Unnamed(ts, name) ==> FindByName(ts, name) == None
  {
    if |ts| > 0 {
      var n := |ts| - 1;
      FindMeans(ts[..n], name);
      forall i: nat | LastNamed(ts, name, i)
        ensures FindByName(ts, name) == Some(ts[i])
      {
        if i < n {
          assert LastNamed(ts[..n], name, i);
        }
      }
    }
  }

  /** A layer runs on the owner of its attention norm, tile 0 if that has none, and round robin without such a tensor. */
  lemma {:induction false} LayerTileMeans(p: PlanInput, l: nat, i: nat)
    ensures var name := "layers." + Digits(l) + ".attention_norm.weight";
            && (LastNamed(p.tensors, name, i) ==> LayerTile(p, l) == p.tensors[i].owner.GetOr(0))
            && (Unnamed(p.tensors, name) ==> LayerTile(p, l) == if p.tileCount > 1 then l % p.tileCount else 0)
  {
    var name := "layers." + Digits(l) + ".attention_norm.weight";
    FindMeans(p.tensors, name);
    hide FindByName;
    hide LastNamed;
    hide Unnamed;
    hide Digits;
  }

  /** The head runs on the owner of the output norm. */
  lemma {:induction false} HeadTileMeans(p: PlanInput, i: nat)
    ensures LastNamed(p.tensors, "norm.weight", i) ==> HeadTile(p) == p.tensors[i].owner.GetOr(0)
    ensures Unnamed(p.tensors, "norm.weight") && LastNamed(p.tensors, "output_norm.weight", i) ==> HeadTile(p) == p.tensors[i].owner.GetOr(0)
    ensures Unnamed(p.tensors, "norm.weight") && Unnamed(p.tensors, "output_norm.weight") ==> HeadTile(p) == 0
  {
    FindMeans(p.tensors, "norm.weight");
    FindMeans(p.tensors, "output_norm.weight");
    hide FindByName;
    hide LastNamed;
    hide Unnamed;
  }

  // ------------------------------------------------------ nothing else is a tensor

  function TensorOps(): (int, Op) -> int {
    (tile: int, op: Op) => if op.LoadTensor? || op.ValidateTensor? then 1 else 0
  }

  lemma {:induction false} LayersWithoutTensors(p: PlanInput, n: nat)
    ensures LayersSum(p, n, TensorOps()) == 0
  {
    hide LayerSpecs;
    hide LayerTile;
    hide Traced;
    hide Total;
    hide PerTile;
    if n > 0 {
      LayersWithoutTensors(p, n - 1);
      LayerWithoutTensors(p, n - 1, LayerTile(p, n - 1));
      PerTileConstant(TensorOps(), TraceSnapshot, p.Tiles(), 0);
    }
  }

  lemma {:induction false} LayerWithoutTensors(p: PlanInput, l: nat, tile: int)
    ensures Total(LayerSpecs(p, l), PerSpec(TensorOps(), tile)) == 0
  {
    var specs := LayerSpecs(p, l);
    hide LayerSpecs;
    forall k | 0 <= k < |specs|
      ensures PerSpec(TensorOps(), tile)(specs[k]) == 0
    {
      NoTensorOp(p, l, k);
    }
    TotalZero(specs, PerSpec(TensorOps(), tile));
  }

  lemma {:induction false} NoTensorOp(p: PlanInput, l: nat, k: nat)
    requires k < 18
    ensures !LayerSpecs(p, l)[k].op.LoadTensor? && !LayerSpecs(p, l)[k].op.ValidateTensor?
  {
    hide Weight;
    hide DtypeBytes;
    if k < 11 {
      assert LayerSpecs(p, l)[k] == AttentionSpecs(p, l)[k];
    } else {
      assert LayerSpecs(p, l)[k] == FfnSpecs(p, l)[k - 11];
    }
  }

  lemma {:induction false} TensorOpsTotal(p: PlanInput)
    ensures Total(Planned(p).cmds, By(TensorOps())) == Total(p.tensors, PerTensor(TensorOps()))
  {
    hide Planned;
    hide Total;
    hide PerTile;
    hide LayersSum;
    hide HeadTile;
    PlannedTotal(p, TensorOps());
    LayersWithoutTensors(p, p.Layers());
    TotalZero(LmHeadSpecs(p), PerSpec(TensorOps(), HeadTile(p)));
    PerTileConstant(TensorOps(), TileBarrier, p.Tiles(), 0);
    PerTileConstant(TensorOps(), TraceSnapshot, p.Tiles(), 0);
    PerTileConstant(TensorOps(), QueryCounters, p.Tiles(), 0);
  }

  /** Behind the load phase nothing is loaded or validated. */
  lemma {:induction false} RestIsNoTensor(p: PlanInput, j: nat)
    requires 2 * |p.tensors| <= j < |Planned(p).cmds|
    ensures !Planned(p).cmds[j].spec.op.LoadTensor? && !Planned(p).cmds[j].spec.op.ValidateTensor?
  {
    hide *;
    var cmds, n := Planned(p).cmds, 2 * |p.tensors|;
    RestTotal(p);
    ZeroAt(cmds[n..], j - n);
  }

  lemma {:induction false} RestTotal(p: PlanInput)
    ensures 2 * |p.tensors| <= |Planned(p).cmds| && Total(Planned(p).cmds[2 * |p.tensors|..], By(TensorOps())) == 0
  {
    hide *;
    LoadInPlan(p);
    var load, rest, f := LoadAll(Gen([], 1, 1), p.tensors).cmds, Planned(p).cmds[2 * |p.tensors|..], By(TensorOps());
    TotalConcat(load, rest, f);
    TensorOpsTotal(p);
    LoadAllTotal(Gen([], 1, 1), p.tensors, TensorOps());
    TotalNone(f);
  }

  lemma {:induction false} ZeroAt(s: seq<ExecCommand>, i: nat)
    requires i < |s| && Total(s, By(TensorOps())) == 0
    ensures !s[i].spec.op.LoadTensor? && !s[i].spec.op.ValidateTensor?
  {
    var f := By(TensorOps());
    TotalWithout(s, i, f);
    TotalZero(Without(s, i), (c: ExecCommand) => 0);
    TotalMonotone(Without(s, i), (c: ExecCommand) => 0, f);
    hide Total;
    hide Without;
  }

  lemma {:induction false} LoadInPlan(p: PlanInput)
    ensures var load := LoadAll(Gen([], 1, 1), p.tensors).cmds;
            |load| == 2 * |p.tensors| <= |Planned(p).cmds| && Planned(p).cmds == load + Planned(p).cmds[2 * |p.tensors|..]
  {
    hide *;
    var load := LoadAll(Gen([], 1, 1), p.tensors);
    LoadSize(p.tensors);
    AtSplits(load, 2 * |p.tensors|, 2 * |p.tensors| + 1);
    SetupAt(p, 0);
    LayersNone(SetupState(p), p);
    LayersInPlan(p, 0);
    PrefixTransitive(load.cmds, SetupState(p).cmds, Planned(p).cmds);
    PrefixSplits(load.cmds, Planned(p).cmds);
  }

  lemma {:induction false} PrefixSplits(a: seq<ExecCommand>, b: seq<ExecCommand>)
    requires Prefix(a, b)
    ensures |a| <= |b| && b == a + b[|a|..]
  {
  }

  // ------------------------------------------------- every position has its tensor

  /** The positions of tensor 0's load and validation, of tensor 1's, and so on. */
  function NthPosition(ts: seq<PlanTensor>): int -> int {
    (x: int) => if 0 <= x < 2 * |ts| then (if x % 2 == 0 then LoadPosition(ts, x / 2) else ValidatePosition(ts, x / 2)) else -1
  }

  function Values(f: int -> int, n: nat): set<int> {
    set x | 0 <= x < n :: f(x)
  }

  function Range(n: nat): (r: set<int>)
    ensures |r| == n && forall v :: v in r <==> 0 <= v < n
  {
    if n == 0 then {} else Range(n - 1) + {n - 1}
  }

  lemma {:induction false} ValuesSize(f: int -> int, n: nat)
    requires forall x, y :: 0 <= x < y < n ==> f(x) != f(y)
    ensures |Values(f, n)| == n
  {
    if n > 0 {
      ValuesSize(f, n - 1);
      assert Values(f, n) == Values(f, n - 1) + {f(n - 1)};
      assert f(n - 1) !in Values(f, n - 1);
    }
  }

  /** Different values below n, as many as there are arguments, are all values below n. */
  lemma {:induction false} AllTaken(f: int -> int, n: nat, v: nat)
    requires (forall x, y :: 0 <= x < y < n ==> f(x) != f(y)) && (forall x :: 0 <= x < n ==> 0 <= f(x) < n) && v < n
    ensures exists x :: 0 <= x < n && f(x) == v
  {
    ValuesSize(f, n);
    var all := Range(n);
    forall y | y in Values(f, n)
      ensures y in all
    {
      var x :| 0 <= x < n && f(x) == y;
    }
    if v !in Values(f, n) {
      assert Values(f, n) <= all - {v};
      SubsetSize(Values(f, n), all - {v});
    }
  }

  lemma {:induction false} SubsetSize(a: set<int>, b: set<int>)
    requires a <= b
    ensures |a| <= |b|
  {
    assert b == a + (b - a);
  }

  lemma {:induction false} PositionsDiffer(ts: seq<PlanTensor>, i: nat, j: nat)
    requires i < |ts| && j < |ts|
    ensures LoadPosition(ts, i) != ValidatePosition(ts, j)
    ensures i != j ==> LoadPosition(ts, i) != LoadPosition(ts, j) && ValidatePosition(ts, i) != ValidatePosition(ts, j)
  {
    assert i != j ==> Precedes(ts, i, j) || Precedes(ts, j, i);
    var same := OwnerOf(ts[i]) == OwnerOf(ts[j]);
    hide *;
    PositionsUnfold(ts, i);
    PositionsUnfold(ts, j);
    RankInside(ts, i);
    RankInside(ts, j);
    if Precedes(ts, i, j) {
      PositionsFollow(ts, i, j);
    } else if Precedes(ts, j, i) {
      PositionsFollow(ts, j, i);
    }
  }

  lemma {:induction false} PositionsInside(ts: seq<PlanTensor>, i: nat)
    requires i < |ts|
    ensures 0 <= LoadPosition(ts, i) < 2 * |ts| && 0 <= ValidatePosition(ts, i) < 2 * |ts|
  {
    hide *;
    LoadPhaseAt(ts, i);
    LoadSize(ts);
    AtSplits(LoadAll(Gen([], 1, 1), ts), 2 * |ts|, 2 * |ts| + 1);
  }

  /** Each of the first 2n commands is the load or the validation of one tensor. */
  lemma {:induction false} EveryPosition(ts: seq<PlanTensor>, j: nat) returns (i: nat)
    requires j < 2 * |ts|
    ensures i < |ts| && (j == LoadPosition(ts, i) || j == ValidatePosition(ts, i))
  {
    var f := NthPosition(ts);
    forall x | 0 <= x < 2 * |ts|
      ensures 0 <= f(x) < 2 * |ts|
    {
      PositionsInside(ts, x / 2);
    }
    forall x, y | 0 <= x < y < 2 * |ts|
      ensures f(x) != f(y)
    {
      PositionsDiffer(ts, x / 2, y / 2);
      PositionsDiffer(ts, y / 2, x / 2);
    }
    hide LoadPosition;
    hide ValidatePosition;
    AllTaken(f, 2 * |ts|, j);
    var x :| 0 <= x < 2 * |ts| && f(x) == j;
    i := x / 2;
  }

  // ----------------------------------------------------------------- status

  /** What the planner's own validation asks of a tensor: an owner below the tile count, and a known way of reducing
      wherever routing is needed. */
  predicate Plannable(t: PlanTensor, tileCount: int) {
    && t.owner.Some? && t.owner.value < tileCount
    && (t.routing == "none" || t.reduction == "none" || t.reduction == "sum" || t.reduction == "concat" || t.reduction == "max"
        || t.reduction == "topk" || t.reduction == "pass_through")
  }

  predicate KnownPolicy(s: string) {
    s == "layer_wise" || s == "tensor_wise" || s == "row_split" || s == "column_split" || s == "head_wise" || s == "lm_head_split"
    || s == "embedding_split"
  }

  lemma {:induction false} ErrorsMean(ts: seq<PlanTensor>, tileCount: int)
    ensures ErrorCount(ts, tileCount) == 0 <==> forall i :: 0 <= i < |ts| ==> Plannable(ts[i], tileCount)
  {
    if |ts| > 0 {
      var n := |ts| - 1;
      ErrorsMean(ts[..n], tileCount);
      TensorErrorsMean(ts[n], tileCount);
      hide TensorErrors;
      hide Plannable;
      assert forall i :: 0 <= i < n ==> ts[..n][i] == ts[i];
    }
  }

  lemma {:induction false} TensorErrorsMean(t: PlanTensor, tileCount: int)
    ensures TensorErrors(t, tileCount) == 0 <==> Plannable(t, tileCount)
  {
  }

  lemma {:induction false} NotesMean(p: PlanInput)
    ensures Notes(p) == [] <==>
      && KnownPolicy(p.policy) && (forall i :: 0 <= i < |p.tensors| ==> p.tensors[i].status == "placed")
      && (p.nLayers <= 0 || p.policy != "head_wise" || |p.partialRoutes| > 0)
  {
    PA.PlacementNotesIff(p.tensors);
    PA.LayerNotesIff(p, p.Layers());
    hide PlacementNotes;
    hide LayerNotes;
  }

  /** The status a plan is given. */
  lemma {:induction false} StatusMeans(p: PlanInput, strict: bool)
    ensures var plannable := forall i :: 0 <= i < |p.tensors| ==> Plannable(p.tensors[i], p.tileCount);
            var quiet := && KnownPolicy(p.policy) && (forall i :: 0 <= i < |p.tensors| ==> p.tensors[i].status == "placed")
                         && (p.nLayers <= 0 || p.policy != "head_wise" || |p.partialRoutes| > 0);
            StatusOf(p, strict) == if !plannable then PlanFail else if quiet then PlanPass else if strict then PlanFail else PlanWarn
  {
    ErrorsMean(p.tensors, p.tileCount);
    NotesMean(p);
    hide ErrorCount;
    hide Notes;
    hide Plannable;
    hide KnownPolicy;
  }
}
