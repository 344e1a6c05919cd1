module PlacementTheorems {
  // What a generated command plan guarantees: each placed tensor is loaded and validated once on its owner
  // in fence order, bytes are conserved, and both consumers of the plan accept it.

  import opened Common
  import opened Tally
  import opened CommandPlan
  import opened PlacementPlan
  import opened Routes
  import opened RouteBuilding
  import opened RouteTheorems
  import RouteValidation

  // ------------------------------------------------------- sums over a plan

  /** What weight g makes of the commands: fl of a load, fv of a validation, one per barrier or none. */
  ghost predicate Weighs(g: Command -> int, fl: Placed -> int, fv: Placed -> int, barrier: bool, model: string, session: string) {
    && (forall id, p :: g(LoadCommand(id, p, model, session)) == fl(p))
    && (forall id, p, load :: g(ValidateCommand(id, p, model, session, load)) == fv(p))
    && (forall id, tile, fence :: g(TileCommand(id, TileBarrier, tile, model, session, fence)) == if barrier then 1 else 0)
  }

  lemma {:induction false} LoadsTotal(first: int, ts: seq<Placed>, model: string, session: string, g: Command -> int, f: Placed -> int)
    requires forall id, p :: g(LoadCommand(id, p, model, session)) == f(p)
    ensures Total(Loads(first, ts, model, session), g) == Total(ts, f)
  {
    hide LoadCommand;
    if |ts| > 0 {
      var init := ts[..|ts| - 1];
      LoadsTotal(first, init, model, session, g, f);
      assert Loads(first, ts, model, session)[..|ts| - 1] == Loads(first, init, model, session);
    }
  }

  lemma {:induction false} ValidatesTotal(first: int, load: int, ts: seq<Placed>, model: string, session: string, g: Command -> int, f: Placed -> int)
    requires forall id, p, l :: g(ValidateCommand(id, p, model, session, l)) == f(p)
    ensures Total(Validates(first, load, ts, model, session), g) == Total(ts, f)
  {
    hide ValidateCommand;
    if |ts| > 0 {
      var init := ts[..|ts| - 1];
      ValidatesTotal(first, load, init, model, session, g, f);
      assert Validates(first, load, ts, model, session)[..|ts| - 1] == Validates(first, load, init, model, session);
    }
  }

  lemma {:induction false} BlockTotal(first: int, tile: int, ts: seq<Placed>, model: string, session: string,
                                      g: Command -> int, fl: Placed -> int, fv: Placed -> int, barrier: bool)
    requires Weighs(g, fl, fv, barrier, model, session)
    ensures Total(Block(first, tile, ts, model, session), g) == Total(ts, fl) + Total(ts, fv) + if barrier then 1 else 0
  {
    hide Loads;
    hide Validates;
    hide Total;
    hide TileCommand;
    LoadsTotal(first, ts, model, session, g, fl);
    ValidatesTotal(first + |ts|, first, ts, model, session, g, fv);
    var a, b := Loads(first, ts, model, session), Validates(first + |ts|, first, ts, model, session);
    TotalConcat(a, b, g);
    TotalSnoc(a + b, TileCommand(first + 2 * |ts|, TileBarrier, tile, model, session, if |ts| == 0 then 0 else first + 2 * |ts| - 1), g);
  }

  function OnTile(tile: int, f: Placed -> int): Placed -> int {
    (p: Placed) => if p.owner == tile then f(p) else 0
  }

  function OwnerBelow(n: nat, f: Placed -> int): Placed -> int {
    (p: Placed) => if 0 <= p.owner < n then f(p) else 0
  }

  lemma {:induction false} GroupTotal(placed: seq<Placed>, tile: int, f: Placed -> int)
    ensures Total(Group(placed, tile), f) == Total(placed, OnTile(tile, f))
  {
    if |placed| > 0 {
      hide Total;
      hide Group;
      var init, p := placed[..|placed| - 1], placed[|placed| - 1];
      GroupTotal(init, tile, f);
      assert placed == init + [p];
      GroupSnoc(init, p, tile);
      TotalSnoc(init, p, OnTile(tile, f));
      TotalSnoc(Group(init, tile), p, f);
      assert Group(init, tile) + [] == Group(init, tile);
    }
  }

  /** Tiles below n that own something. */
  function UsedTiles(placed: seq<Placed>, n: nat): nat {
    if n == 0 then 0 else UsedTiles(placed, n - 1) + if Group(placed, n - 1) == [] then 0 else 1
  }

  lemma {:induction false} TileTotal(placed: seq<Placed>, tile: nat, f: Placed -> int)
    ensures Total(TileTensors(placed, tile), f) == Total(placed, OnTile(tile, f))
    ensures Total(placed, OwnerBelow(tile + 1, f)) == Total(placed, OwnerBelow(tile, f)) + Total(placed, OnTile(tile, f))
  {
    SortPermutes(Group(placed, tile), PlacedOrder());
    TotalPermuted(TileTensors(placed, tile), Group(placed, tile), f);
    GroupTotal(placed, tile, f);
    TotalAdd(placed, OwnerBelow(tile, f), OnTile(tile, f), OwnerBelow(tile + 1, f));
  }

  lemma {:induction false} BlocksTotal(placed: seq<Placed>, n: nat, model: string, session: string,
                                       g: Command -> int, fl: Placed -> int, fv: Placed -> int, barrier: bool)
    requires Weighs(g, fl, fv, barrier, model, session)
    ensures Total(Blocks(placed, n, model, session), g)
         == Total(placed, OwnerBelow(n, fl)) + Total(placed, OwnerBelow(n, fv)) + (if barrier then UsedTiles(placed, n) else 0)
  {
    hide Weighs;
    hide Block;
    hide Group;
    if n > 0 {
      var tile := n - 1;
      BlocksTotal(placed, tile, model, session, g, fl, fv, barrier);
      TileTotal(placed, tile, fl);
      TileTotal(placed, tile, fv);
      var before, ts := Blocks(placed, tile, model, session), TileTensors(placed, tile);
      hide Total;
      hide TileTensors;
      if Group(placed, tile) == [] {
        EmptyTile(placed, tile, fl);
        EmptyTile(placed, tile, fv);
      } else {
        BlockTotal(|before| + 1, tile, ts, model, session, g, fl, fv, barrier);
        TotalConcat(before, Block(|before| + 1, tile, ts, model, session), g);
      }
    } else {
      TotalZero(placed, OwnerBelow(0, fl));
      TotalZero(placed, OwnerBelow(0, fv));
    }
  }

  lemma {:induction false} EmptyTile(placed: seq<Placed>, tile: nat, f: Placed -> int)
    requires Group(placed, tile) == []
    ensures Total(placed, OnTile(tile, f)) == 0
  {
    GroupTotal(placed, tile, f);
  }

  ghost predicate OwnersBelow(placed: seq<Placed>, n: nat) {
    forall i :: 0 <= i < |placed| ==> 0 <= placed[i].owner < n
  }

  lemma {:induction false} OwnedTotal(placed: seq<Placed>, n: nat, f: Placed -> int)
    requires OwnersBelow(placed, n)
    ensures Total(placed, OwnerBelow(n, f)) == Total(placed, f)
  {
    TotalSame(placed, OwnerBelow(n, f), f);
  }

  /** A weight of the whole plan; the two closing commands are weighed separately. */
  lemma {:induction false} PlanTotal(placed: seq<Placed>, n: nat, model: string, session: string,
                                     g: Command -> int, fl: Placed -> int, fv: Placed -> int, barrier: bool)
    requires Weighs(g, fl, fv, barrier, model, session) && OwnersBelow(placed, n)
    ensures var cs := Commands(placed, n, model, session);
            |cs| >= 2 && Total(cs, g) == Total(placed, fl) + Total(placed, fv) + (if barrier then UsedTiles(placed, n) else 0)
                                         + g(cs[|cs| - 2]) + g(cs[|cs| - 1])
  {
    BlocksTotal(placed, n, model, session, g, fl, fv, barrier);
    OwnedTotal(placed, n, fl);
    OwnedTotal(placed, n, fv);
    var blocks := Blocks(placed, n, model, session);
    var q, t := TileCommand(|blocks| + 1, QueryCounters, 0, model, session, |blocks|),
                TileCommand(|blocks| + 2, TraceSnapshot, 0, model, session, |blocks|);
    hide Blocks;
    hide Total;
    hide UsedTiles;
    hide Weighs;
    assert Commands(placed, n, model, session) == blocks + [q] + [t];
    TotalSnoc(blocks, q, g);
    TotalSnoc(blocks + [q], t, g);
  }

  // ------------------------------------------------- loaded exactly once

  /** What a command says about its tensor. */
  datatype Cargo = Cargo(
    tile: int, tensorId: Option<int>, tensorName: Option<string>, dtype: Option<string>, quantization: Option<string>,
    groupSize: Option<int>, bytes: int, checksum: Option<string>)

  function CargoOf(c: Command): Cargo {
    Cargo(c.tileId, c.tensorId, c.tensorName, c.dtype, c.quantization, c.groupSize, c.totalBytes, c.checksum)
  }

  /** The tensor on its owner tile. */
  function CargoIn(p: Placed): Cargo {
    Cargo(p.owner, Some(p.tensorId), Some(p.tensorName), Some(p.dtype), Some(p.quantization), p.groupSize, p.Bytes(), p.checksum)
  }

  function Carries(kind: CommandType, cargo: Cargo): Command -> int {
    (c: Command) => if c.commandType == kind && CargoOf(c) == cargo then 1 else 0
  }

  function Matching(cargo: Cargo): Placed -> int {
    (p: Placed) => if CargoIn(p) == cargo then 1 else 0
  }

  function Nothing(): Placed -> int {
    (p: Placed) => 0
  }

  function Each(): Placed -> int {
    (p: Placed) => 1
  }

  lemma {:induction false} EachCounts(placed: seq<Placed>)
    ensures Total(placed, Each()) == |placed|
  {
    if |placed| > 0 {
      EachCounts(placed[..|placed| - 1]);
    }
  }

  /** Every placed tensor is loaded, and validated, on its owner tile exactly as often as the report places it. */
  lemma {:induction false} LoadedAndValidatedOnce(placed: seq<Placed>, n: nat, model: string, session: string, cargo: Cargo)
    requires OwnersBelow(placed, n)
    ensures Total(Commands(placed, n, model, session), Carries(LoadTensorTile, cargo)) == Total(placed, Matching(cargo))
    ensures Total(Commands(placed, n, model, session), Carries(ValidateTensor, cargo)) == Total(placed, Matching(cargo))
  {
    hide Total;
    hide Blocks;
    hide UsedTiles;
    hide Weighs;
    hide OwnersBelow;
    TotalZero(placed, Nothing());
    LoadsWeigh(cargo, model, session);
    ValidatesWeigh(cargo, model, session);
    PlanTotal(placed, n, model, session, Carries(LoadTensorTile, cargo), Matching(cargo), Nothing(), false);
    PlanTotal(placed, n, model, session, Carries(ValidateTensor, cargo), Nothing(), Matching(cargo), false);
  }

  lemma {:induction false} LoadsWeigh(cargo: Cargo, model: string, session: string)
    ensures Weighs(Carries(LoadTensorTile, cargo), Matching(cargo), Nothing(), false, model, session)
  {
  }

  lemma {:induction false} ValidatesWeigh(cargo: Cargo, model: string, session: string)
    ensures Weighs(Carries(ValidateTensor, cargo), Nothing(), Matching(cargo), false, model, session)
  {
  }

  function PlacedBytes(): Placed -> int {
    (p: Placed) => p.Bytes()
  }

  function PlacedWith(dtype: string): Placed -> int {
    (p: Placed) => if p.dtype == dtype then 1 else 0
  }

  /** The summary's byte total is what the report placed, and its dtype counts are the report's. */
  lemma {:induction false} BytesConserved(placed: seq<Placed>, n: nat, model: string, session: string, dtype: string)
    requires OwnersBelow(placed, n)
    ensures Total(Commands(placed, n, model, session), BytesLoaded) == Total(placed, PlacedBytes())
    ensures Total(Commands(placed, n, model, session), LoadsWith(dtype)) == Total(placed, PlacedWith(dtype))
  {
    TotalZero(placed, Nothing());
    PlanTotal(placed, n, model, session, BytesLoaded, PlacedBytes(), Nothing(), false);
    PlanTotal(placed, n, model, session, LoadsWith(dtype), PlacedWith(dtype), Nothing(), false);
    hide Total;
    hide Blocks;
    hide UsedTiles;
  }

  function KindCount(kind: CommandType, placed: nat, used: nat): nat {
    match kind
    case LoadTensorTile => placed
    case ValidateTensor => placed
    case TileBarrier => used
    case QueryCounters => 1
    case TraceSnapshot => 1
    case _ => 0
  }

  /** The summary's dictionary of command types: one entry per kind in the plan, with its count. */
  lemma {:induction false} TypesCounted(placed: seq<Placed>, n: nat, model: string, session: string, s: Summary, kind: CommandType)
    requires OwnersBelow(placed, n) && SummaryIs(s, Commands(placed, n, model, session))
    ensures var count := KindCount(kind, |placed|, UsedTiles(placed, n));
            if count > 0 then kind in s.byType && s.byType[kind] == count else kind !in s.byType
  {
    hide *;
    KindTotal(placed, n, model, session, kind);
    CountOf(s, Commands(placed, n, model, session), kind);
    assert KindCount(kind, |placed|, UsedTiles(placed, n)) >= 0;
  }

  lemma {:induction false} CountOf(s: Summary, cs: seq<Command>, kind: CommandType)
    requires SummaryIs(s, cs)
    ensures if kind in s.byType then s.byType[kind] > 0 && s.byType[kind] == Total(cs, KeyIs(TypeOf, kind))
            else Total(cs, KeyIs(TypeOf, kind)) == 0
  {
    hide Total;
  }

  function Constant(k: int): Placed -> int {
    (p: Placed) => k
  }

  lemma {:induction false} ConstantTotal(placed: seq<Placed>, k: int)
    ensures Total(placed, Constant(k)) == k * |placed|
  {
    if |placed| > 0 {
      ConstantTotal(placed[..|placed| - 1], k);
    }
  }

  lemma {:induction false} KindTotal(placed: seq<Placed>, n: nat, model: string, session: string, kind: CommandType)
    requires OwnersBelow(placed, n)
    ensures Total(Commands(placed, n, model, session), KeyIs(TypeOf, kind)) == KindCount(kind, |placed|, UsedTiles(placed, n))
  {
    hide Total;
    hide Blocks;
    hide UsedTiles;
    hide OwnersBelow;
    hide Weighs;
    var loads, validates := if kind.LoadTensorTile? then 1 else 0, if kind.ValidateTensor? then 1 else 0;
    ConstantTotal(placed, loads);
    ConstantTotal(placed, validates);
    KindWeighs(kind, loads, validates, model, session);
    PlanTotal(placed, n, model, session, KeyIs(TypeOf, kind), Constant(loads), Constant(validates), kind.TileBarrier?);
    var cs := Commands(placed, n, model, session);
    KeyIsKind(kind, cs[|cs| - 2]);
    KeyIsKind(kind, cs[|cs| - 1]);
  }

  lemma {:induction false} KindWeighs(kind: CommandType, loads: int, validates: int, model: string, session: string)
    requires loads == if kind.LoadTensorTile? then 1 else 0
    requires validates == if kind.ValidateTensor? then 1 else 0
    ensures Weighs(KeyIs(TypeOf, kind), Constant(loads), Constant(validates), kind.TileBarrier?, model, session)
  {
    forall c: Command
      ensures KeyIs(TypeOf, kind)(c) == if c.commandType == kind then 1 else 0
    {
      KeyIsKind(kind, c);
    }
  }

  lemma {:induction false} KeyIsKind(kind: CommandType, c: Command)
    ensures KeyIs(TypeOf, kind)(c) == if c.commandType == kind then 1 else 0
  {
    var key := TypeOf;
    assert key(c) == c.commandType;
  }

  // ------------------------------------------------------- ids and fences

  ghost predicate PlacedOk(p: Placed, n: nat) {
    0 <= p.owner < n && SupportedDtype(p.dtype) && (p.dtype == "q4" ==> p.groupSize.Some? && SupportedGroupSize(p.groupSize.value))
  }

  ghost predicate AllPlacedOk(placed: seq<Placed>, n: nat) {
    forall i :: 0 <= i < |placed| ==> PlacedOk(placed[i], n)
  }

  /** Command i carries id i + 1, sits on a tile of the plan, and waits for an earlier command: a validation
      for the load of the same tensor on the same tile, a barrier for a validation on its tile; no two validations share
      a load. */
  ghost predicate GoodAt(cs: seq<Command>, i: nat, n: nat)
    requires i < |cs|
  {
    var c := cs[i];
    && c.commandId == i + 1 && 0 <= c.fenceId <= i && 0 <= c.tileId < n && Complaints(i, c) == []
    && match c.commandType
       case LoadTensorTile => c.fenceId == 0
       case ValidateTensor =>
         && c.fenceId >= 1 && cs[c.fenceId - 1].commandType.LoadTensorTile? && CargoOf(cs[c.fenceId - 1]) == CargoOf(c)
         && OwnLoad(cs, i)
       case TileBarrier =>
         c.fenceId == i && i >= 1 && cs[i - 1].commandType.ValidateTensor? && cs[i - 1].tileId == c.tileId
       case QueryCounters => true
       case TraceSnapshot => true
       case _ => false
  }

  /** No earlier validation waits for the same load. */
  ghost predicate OwnLoad(cs: seq<Command>, i: nat)
    requires i < |cs|
  {
    forall j :: 0 <= j < i && cs[j].commandType.ValidateTensor? ==> cs[j].fenceId < cs[i].fenceId
  }

  ghost predicate GoodPlan(cs: seq<Command>, n: nat) {
    forall i :: 0 <= i < |cs| ==> GoodAt(cs, i, n)
  }

  lemma {:induction false} GoodSnoc(cs: seq<Command>, c: Command, n: nat)
    requires GoodPlan(cs, n) && GoodAt(cs + [c], |cs|, n)
    ensures GoodPlan(cs + [c], n)
  {
    var all := cs + [c];
    forall i | 0 <= i < |all|
      ensures GoodAt(all, i, n)
    {
      if i < |cs| {
        assert GoodAt(cs, i, n);
        GoodExtends(cs, c, i, n);
      }
    }
  }

  lemma {:induction false} GoodExtends(cs: seq<Command>, c: Command, i: nat, n: nat)
    requires i < |cs| && GoodAt(cs, i, n)
    ensures GoodAt(cs + [c], i, n)
  {
    hide Complaints;
  }

  lemma {:induction false} NoComplaints(at: nat, id: int, p: Placed, model: string, session: string, load: int, n: nat)
    requires PlacedOk(p, n)
    ensures Complaints(at, LoadCommand(id, p, model, session)) == []
    ensures Complaints(at, ValidateCommand(id, p, model, session, load)) == []
  {
  }

  lemma {:induction false} LoadsGood(before: seq<Command>, ts: seq<Placed>, k: nat, model: string, session: string, n: nat)
    requires GoodPlan(before, n) && k <= |ts| && AllPlacedOk(ts, n)
    ensures GoodPlan(before + Loads(|before| + 1, ts, model, session)[..k], n)
  {
    var loads := Loads(|before| + 1, ts, model, session);
    if k == 0 {
      assert before + loads[..0] == before;
    } else {
      LoadsGood(before, ts, k - 1, model, session, n);
      var prefix, c := before + loads[..k - 1], LoadCommand(|before| + k, ts[k - 1], model, session);
      assert loads[k - 1] == c;
      assert before + loads[..k] == prefix + [c];
      NoComplaints(|before| + k - 1, |before| + k, ts[k - 1], model, session, 0, n);
      assert GoodAt(prefix + [c], |prefix|, n);
      GoodSnoc(prefix, c, n);
    }
  }

  lemma {:induction false} ValidatesGood(before: seq<Command>, ts: seq<Placed>, k: nat, model: string, session: string, n: nat)
    requires k <= |ts| && AllPlacedOk(ts, n)
    requires GoodPlan(before + Loads(|before| + 1, ts, model, session), n)
    ensures GoodPlan(before + Loads(|before| + 1, ts, model, session)
                     + Validates(|before| + 1 + |ts|, |before| + 1, ts, model, session)[..k], n)
  {
    hide Complaints;
    var loaded := before + Loads(|before| + 1, ts, model, session);
    var validates := Validates(|before| + 1 + |ts|, |before| + 1, ts, model, session);
    if k == 0 {
      assert loaded + validates[..0] == loaded;
    } else {
      ValidatesGood(before, ts, k - 1, model, session, n);
      var prefix := loaded + validates[..k - 1];
      var c := ValidateCommand(|loaded| + k, ts[k - 1], model, session, |before| + k);
      TakeNext(validates, k - 1);
      assert loaded + validates[..k] == prefix + [c];
      NextValidateGood(before, ts, k, model, session, n, prefix, c);
      GoodSnoc(prefix, c, n);
    }
  }

  lemma {:induction false} NextValidateGood(before: seq<Command>, ts: seq<Placed>, k: nat, model: string, session: string, n: nat,
                                            prefix: seq<Command>, c: Command)
    requires 1 <= k <= |ts| && AllPlacedOk(ts, n)
    requires var loads := Loads(|before| + 1, ts, model, session);
             prefix == before + loads + Validates(|before| + 1 + |ts|, |before| + 1, ts, model, session)[..k - 1]
    requires GoodPlan(prefix, n) && c == ValidateCommand(|before| + |ts| + k, ts[k - 1], model, session, |before| + k)
    ensures GoodAt(prefix + [c], |prefix|, n)
  {
    hide Complaints;
    var p := ts[k - 1];
    assert PlacedOk(p, n);
    NoComplaints(|prefix|, |before| + |ts| + k, p, model, session, |before| + k, n);
    assert prefix[|before| + k - 1] == LoadCommand(|before| + k, p, model, session);
    OwnLoadNext(before, ts, k, model, session, n, prefix, c);
  }

  /** The validations before it wait for smaller loads. */
  lemma {:induction false} OwnLoadNext(before: seq<Command>, ts: seq<Placed>, k: nat, model: string, session: string, n: nat,
                                       prefix: seq<Command>, c: Command)
    requires 1 <= k <= |ts|
    requires var loads := Loads(|before| + 1, ts, model, session);
             prefix == before + loads + Validates(|before| + 1 + |ts|, |before| + 1, ts, model, session)[..k - 1]
    requires GoodPlan(prefix, n) && c.fenceId == |before| + k
    ensures OwnLoad(prefix + [c], |prefix|)
  {
    hide Complaints;
    forall j | 0 <= j < |prefix| && prefix[j].commandType.ValidateTensor?
      ensures prefix[j].fenceId < c.fenceId
    {
      assert GoodAt(prefix, j, n);
      if j >= |before| + |ts| {
        assert prefix[j] == Validates(|before| + 1 + |ts|, |before| + 1, ts, model, session)[j - |before| - |ts|];
      } else if j >= |before| {
        assert prefix[j] == Loads(|before| + 1, ts, model, session)[j - |before|];
      }
    }
  }

  lemma {:induction false} BlockGood(before: seq<Command>, tile: nat, ts: seq<Placed>, model: string, session: string, n: nat)
    requires GoodPlan(before, n) && |ts| > 0 && AllPlacedOk(ts, n) && tile < n
    requires forall i :: 0 <= i < |ts| ==> ts[i].owner == tile
    ensures GoodPlan(before + Block(|before| + 1, tile, ts, model, session), n)
  {
    var loads, validates := Loads(|before| + 1, ts, model, session), Validates(|before| + 1 + |ts|, |before| + 1, ts, model, session);
    LoadsGood(before, ts, |ts|, model, session, n);
    assert loads[..|ts|] == loads;
    ValidatesGood(before, ts, |ts|, model, session, n);
    assert validates[..|ts|] == validates;
    var prefix := before + loads + validates;
    var c := TileCommand(|before| + 1 + 2 * |ts|, TileBarrier, tile, model, session, |before| + 2 * |ts|);
    assert prefix[|prefix| - 1] == validates[|ts| - 1];
    hide GoodPlan;
    assert GoodAt(prefix + [c], |prefix|, n);
    GoodSnoc(prefix, c, n);
    assert before + Block(|before| + 1, tile, ts, model, session) == prefix + [c];
  }

  lemma {:induction false} GroupMembers(placed: seq<Placed>, tile: int, n: nat)
    requires AllPlacedOk(placed, n)
    ensures AllPlacedOk(Group(placed, tile), n)
  {
    if |placed| > 0 {
      GroupMembers(placed[..|placed| - 1], tile, n);
    }
  }

  lemma {:induction false} TileTensorsOk(placed: seq<Placed>, tile: int, n: nat)
    requires AllPlacedOk(placed, n)
    ensures AllPlacedOk(TileTensors(placed, tile), n) && |TileTensors(placed, tile)| == |Group(placed, tile)|
    ensures forall i :: 0 <= i < |TileTensors(placed, tile)| ==> TileTensors(placed, tile)[i].owner == tile
  {
    var g, ts := Group(placed, tile), TileTensors(placed, tile);
    GroupMembers(placed, tile, n);
    SortPermutes(g, PlacedOrder());
    hide PlacedOk;
    forall i | 0 <= i < |ts|
      ensures PlacedOk(ts[i], n) && ts[i].owner == tile
    {
      assert ts[i] in multiset(g);
      var k :| 0 <= k < |g| && g[k] == ts[i];
    }
  }

  lemma {:induction false} BlocksGood(placed: seq<Placed>, k: nat, model: string, session: string, n: nat)
    requires AllPlacedOk(placed, n) && k <= n
    ensures GoodPlan(Blocks(placed, k, model, session), n)
  {
    hide GoodAt;
    hide PlacedOk;
    hide Block;
    if k > 0 {
      BlocksGood(placed, k - 1, model, session, n);
      if Group(placed, k - 1) != [] {
        TileTensorsOk(placed, k - 1, n);
        hide Group;
        hide TileTensors;
        BlockGood(Blocks(placed, k - 1, model, session), k - 1, TileTensors(placed, k - 1), model, session, n);
      }
    }
  }

  /** The whole plan: ids count from one, every fence points backwards to the right command. */
  lemma {:induction false} PlanGood(placed: seq<Placed>, n: nat, model: string, session: string)
    requires AllPlacedOk(placed, n) && n > 0
    ensures GoodPlan(Commands(placed, n, model, session), n)
  {
    BlocksGood(placed, n, model, session, n);
    var blocks := Blocks(placed, n, model, session);
    var q, t := TileCommand(|blocks| + 1, QueryCounters, 0, model, session, |blocks|),
                TileCommand(|blocks| + 2, TraceSnapshot, 0, model, session, |blocks|);
    hide Blocks;
    assert GoodAt(blocks + [q], |blocks|, n);
    GoodSnoc(blocks, q, n);
    assert GoodAt(blocks + [q] + [t], |blocks| + 1, n);
    GoodSnoc(blocks + [q], t, n);
    assert Commands(placed, n, model, session) == blocks + [q] + [t];
  }

  lemma {:induction false} ScreenedOk(ts: seq<TensorRecord>, n: nat, strict: bool, k: nat)
    requires k <= |ts|
    ensures AllPlacedOk(ScreenAll(ts, n, strict, k).placed, n)
  {
    if k > 0 {
      ScreenedOk(ts, n, strict, k - 1);
    }
  }

  // ------------------------------------------------------------- acceptance

  lemma {:induction false} GoodIsAccepted(cs: seq<Command>, n: nat, strict: bool, k: nat)
    requires GoodPlan(cs, n) && k <= |cs|
    ensures CheckCommands(cs, n, strict, k) == Ok([])
  {
    hide Complaints;
    if k > 0 {
      GoodIsAccepted(cs, n, strict, k - 1);
      assert GoodAt(cs, k - 1, n);
      assert k > 1 ==> GoodAt(cs, k - 2, n);
      var none: seq<Complaint> := [];
      assert none + none == none;
    }
  }

  /** The header the placement mapper writes. */
  function PlacementHeader(cs: seq<Command>, n: nat, tensors: nat, model: string, session: string): PlanHeader {
    PlanHeader(n, tensors, |cs|, model, session, "ok")
  }

  lemma {:induction false} LoadsCount(placed: seq<Placed>, n: nat, model: string, session: string)
    requires OwnersBelow(placed, n)
    ensures Total(Commands(placed, n, model, session), OneEach) == 2 * |placed| + UsedTiles(placed, n) + 2
  {
    EachCounts(placed);
    PlanTotal(placed, n, model, session, OneEach, Each(), Each(), true);
    hide Total;
    hide Blocks;
    hide UsedTiles;
  }

  function OneEach(c: Command): int {
    1
  }

  lemma {:induction false} OneEachCounts(cs: seq<Command>)
    ensures Total(cs, OneEach) == |cs|
  {
    if |cs| > 0 {
      OneEachCounts(cs[..|cs| - 1]);
    }
  }

  /** Main result: from a report without errors, p placed tensors on u tiles become 2p + u + 2 commands that
      keep ids and fences in order; the replay tool accepts the plan without warnings unless it is strict,
      in which case the header's "ok" is refused. */
  lemma {:induction false} PlacementPlanIsSound(ts: seq<TensorRecord>, n: nat, strict: bool, model: string, session: string)
    requires n > 0 && BuildPlan(ts, n, strict, model, session).Ok?
    ensures var cs, placed := BuildPlan(ts, n, strict, model, session).value, ScreenAll(ts, n, strict, |ts|).placed;
            var plan := Plan(PLAN_VERSION, PlacementHeader(cs, n, |placed|, model, session), cs);
            && GoodPlan(cs, n)
            && |cs| == 2 * |placed| + UsedTiles(placed, n) + 2
            && CheckPlan(plan, false) == Ok([])
            && CheckPlan(plan, true).Err?
            && MapperCheck(plan, false).Ok?
  {
    ScreenedOk(ts, n, strict, |ts|);
    var placed := ScreenAll(ts, n, strict, |ts|).placed;
    PlanGood(placed, n, model, session);
    var cs := Commands(placed, n, model, session);
    GoodIsAccepted(cs, n, false, |cs|);
    MapperAccepts(cs, n, |cs|);
    LoadsCount(placed, n, model, session);
    OneEachCounts(cs);
    GoodTiles(cs, n);
    hide CheckCommands;
    hide MapperCheckCommands;
    hide Commands;
    hide GoodPlan;
    hide AllPlacedOk;
    hide Total;
    hide UsedTiles;
  }

  lemma {:induction false} GoodTiles(cs: seq<Command>, n: nat)
    requires GoodPlan(cs, n)
    ensures OnTiles(cs, n)
  {
    forall i | 0 <= i < |cs|
      ensures 0 <= cs[i].tileId < n
    {
      assert GoodAt(cs, i, n);
    }
  }

  // ----------------------------------------------------------------- routes

  function RoutesOf(tileCount: nat): Command -> int {
    (c: Command) => if c.commandType.LoadTensorTile? || (tileCount == 1 && !c.commandType.TileBarrier?) then 0 else 1
  }

  lemma {:induction false} EmitsOne(tileCount: nat, bytes: TensorBytes, cs: seq<Command>, i: nat, reductions: nat)
    requires GoodPlan(cs, tileCount) && i < |cs|
    ensures Emission(tileCount, bytes, cs[i], reductions).0.Some? <==> RoutesOf(tileCount)(cs[i]) == 1
  {
    assert GoodAt(cs, i, tileCount);
    OthersExist(tileCount, cs[i].tileId);
    hide OtherTiles;
    hide AllTiles;
    hide Complaints;
  }

  lemma {:induction false} RouteCount(tileCount: nat, bytes: TensorBytes, cs: seq<Command>, k: nat)
    requires GoodPlan(cs, tileCount) && k <= |cs|
    ensures |MapCommands(tileCount, bytes, cs, k).routes| == Total(cs[..k], RoutesOf(tileCount))
  {
    hide Emission;
    hide GoodAt;
    if k > 0 {
      RouteCount(tileCount, bytes, cs, k - 1);
      assert cs[..k] == cs[..k - 1] + [cs[k - 1]];
      TotalSnoc(cs[..k - 1], cs[k - 1], RoutesOf(tileCount));
      EmitsOne(tileCount, bytes, cs, k - 1, MapCommands(tileCount, bytes, cs, k - 1).reductions);
    }
  }

  /** On two or more tiles a placement plan maps to exactly p + u + 2 fabric routes; on one tile only the
      barriers have anywhere to go. */
  lemma {:induction false} PlacementRoutes(placed: seq<Placed>, n: nat, bytes: TensorBytes, model: string, session: string)
    requires AllPlacedOk(placed, n) && n > 0
    ensures var cs := Commands(placed, n, model, session);
            |MapCommands(n, bytes, cs, |cs|).routes|
            == if n == 1 then UsedTiles(placed, n) else |placed| + UsedTiles(placed, n) + 2
  {
    PlanGood(placed, n, model, session);
    var cs := Commands(placed, n, model, session);
    RouteCount(n, bytes, cs, |cs|);
    assert cs[..|cs|] == cs;
    EachCounts(placed);
    TotalZero(placed, Nothing());
    OwnersOk(placed, n);
    var fv := if n == 1 then Nothing() else Each();
    PlanTotal(placed, n, model, session, RoutesOf(n), Nothing(), fv, true);
    hide MapCommands;
    hide Total;
    hide Blocks;
    hide UsedTiles;
    hide GoodPlan;
  }

  lemma {:induction false} OwnersOk(placed: seq<Placed>, n: nat)
    requires AllPlacedOk(placed, n)
    ensures OwnersBelow(placed, n)
  {
    forall i | 0 <= i < |placed|
      ensures 0 <= placed[i].owner < n
    {
      assert PlacedOk(placed[i], n);
    }
  }

  /** The route mapper has nothing to warn about in a placement plan exactly when there is a second tile. */
  lemma {:induction false} PlacementQuiet(placed: seq<Placed>, n: nat, bytes: TensorBytes, model: string, session: string)
    requires AllPlacedOk(placed, n) && n > 0
    ensures var cs := Commands(placed, n, model, session);
            AllQuiet(n, bytes, cs, |cs|) <==> n >= 2
  {
    PlanGood(placed, n, model, session);
    var cs := Commands(placed, n, model, session);
    assert |cs| >= 1 && cs[|cs| - 1].commandType.TraceSnapshot?;
    hide Commands;
    hide Complaints;
    hide OwnLoad;
    hide KnownPayload;
    if n >= 2 {
      forall i | 0 <= i < |cs|
        ensures Quiet(n, bytes, cs, i)
      {
        assert GoodAt(cs, i, n);
        forall j | 0 <= j < i
          ensures cs[j].commandId != cs[i].commandId
        {
          assert GoodAt(cs, j, n);
        }
      }
    } else {
      assert !Quiet(n, bytes, cs, |cs| - 1);
    }
  }

  /** So a strict mapper makes a report of a placement plan exactly when there is a second tile, and that report passes
      the strict validator. */
  lemma {:induction false} PlacementReport(placed: seq<Placed>, bytes: TensorBytes, p: Plan)
    requires p.version == PLAN_VERSION && p.header.status == "ok" && p.header.tileCount > 0 && AllPlacedOk(placed, p.header.tileCount)
    requires p.commands == Commands(placed, p.header.tileCount, p.header.modelId, p.header.sessionId)
    ensures MapPlan(p, bytes, false).Ok?
    ensures MapPlan(p, bytes, true).Ok? <==> p.header.tileCount >= 2
    ensures MapPlan(p, bytes, true).Ok? ==> RouteValidation.Errors(MapPlan(p, bytes, true).value, true) == []
  {
    var n := p.header.tileCount;
    PlanGood(placed, n, p.header.modelId, p.header.sessionId);
    forall i | 0 <= i < |p.commands|
      ensures 0 <= p.commands[i].tileId < n && !EmitsNegative(n, p.commands[i])
    {
      assert GoodAt(p.commands, i, n);
    }
    MapperAccepts(p.commands, n, |p.commands|);
    hide MapCommands;
    hide AllQuiet;
    hide Total;
    hide Summaries;
    hide RouteValidation.Errors;
    hide Commands;
    hide AllPlacedOk;
    hide GoodPlan;
    PlacementQuiet(placed, n, bytes, p.header.modelId, p.header.sessionId);
    ReportPassesIff(p, bytes);
    if MapPlan(p, bytes, true).Ok? {
      MapperReportValidates(p, bytes, true, true, MapPlan(p, bytes, true).value);
    }
  }
}
