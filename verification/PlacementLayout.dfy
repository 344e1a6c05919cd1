module PlacementLayout {
  // Which records of a placement report make it into the plan, and where their commands stand in it.

  import opened Common
  import opened Tally
  import opened CommandPlan
  import opened PlacementPlan
  import opened WireNames

  // -------------------------------------------------------------- screening

  /** A record that is turned into commands. */
  predicate Usable(t: TensorRecord, tileCount: int) {
    && t.tensorId.Some? && t.tensorName.Some? && t.placementStatus == Some("placed")
    && t.ownerTile.Some? && 0 <= t.ownerTile.value < tileCount
    && (t.dtype == Some("f32") || t.dtype == Some("q8") || (t.dtype == Some("q4") && (t.groupSize == Some(32) || t.groupSize == Some(64))))
  }

  /** A record that is only warned about. */
  predicate PassedOver(t: TensorRecord, strict: bool) {
    t.tensorId.Some? && t.tensorName.Some? && t.placementStatus.Some? && t.placementStatus != Some("placed") && !strict
  }

  function UsableOne(tileCount: int): TensorRecord -> int {
    (t: TensorRecord) => if Usable(t, tileCount) then 1 else 0
  }

  /** What is kept of a record: absent numbers are zero, an absent quantization is "none", and an absent checksum is a
      zero one, while a null AIMU or checksum stays null. */
  ghost predicate Keeps(p: Placed, t: TensorRecord) {
    && Some(p.tensorId) == t.tensorId && Some(p.tensorName) == t.tensorName && Some(p.owner) == t.ownerTile && Some(p.dtype) == t.dtype
    && p.groupSize == t.groupSize
    && p.packedBytes == (if t.packedBytes.Some? then t.packedBytes.value else 0)
    && p.scaleBytes == (if t.scaleBytes.Some? then t.scaleBytes.value else 0)
    && p.sliceStart == (if t.sliceStart.Some? then t.sliceStart.value else 0)
    && p.quantization == (if t.quantization.Some? && t.quantization.value != "" then t.quantization.value else "none")
    && p.aimu == (if t.ownerAimu.Given? then Some(t.ownerAimu.value) else if t.ownerAimu.Null? then None else t.ownerTile)
    && p.checksum == (if t.checksum.Given? then Some(t.checksum.value) else if t.checksum.Null? then None else Some("0x0000000000000000"))
  }

  lemma {:induction false} ScreenMeans(t: TensorRecord, tileCount: int, strict: bool)
    ensures Screen(t, tileCount, strict).Accept? <==> Usable(t, tileCount)
    ensures Screen(t, tileCount, strict).Skip? <==> PassedOver(t, strict)
    ensures Usable(t, tileCount) ==> Keeps(Screen(t, tileCount, strict).tensor, t)
  {
  }

  /** The k-th usable record is the k-th placed tensor; warnings and errors name the other records. */
  ghost predicate Screens(ts: seq<TensorRecord>, tileCount: int, strict: bool, n: nat, s: Screening)
    requires n <= |ts|
  {
    && |s.placed| == Total(ts[..n], UsableOne(tileCount))
    && (forall i :: 0 <= i < n && Usable(ts[i], tileCount) ==> KeptAt(ts, tileCount, i, s.placed))
    && (forall i: nat :: i in s.warnings <==> i < n && PassedOver(ts[i], strict))
    && (forall i: nat :: i in s.errors <==> i < n && !Usable(ts[i], tileCount) && !PassedOver(ts[i], strict))
  }

  ghost predicate KeptAt(ts: seq<TensorRecord>, tileCount: int, i: nat, placed: seq<Placed>)
    requires i < |ts|
  {
    var k := Total(ts[..i], UsableOne(tileCount));
    0 <= k < |placed| && Keeps(placed[k], ts[i])
  }

  lemma {:induction false} KeptStays(ts: seq<TensorRecord>, tileCount: int, i: nat, placed: seq<Placed>, p: Placed)
    requires i < |ts| && KeptAt(ts, tileCount, i, placed)
    ensures KeptAt(ts, tileCount, i, placed + [p])
  {
    hide Keeps;
    hide Total;
  }

  lemma {:induction false} NoRecords(ts: seq<TensorRecord>, tileCount: int, strict: bool)
    ensures Screens(ts, tileCount, strict, 0, Screening([], [], []))
  {
  }

  lemma {:induction false} ScreensNext(ts: seq<TensorRecord>, tileCount: int, strict: bool, n: nat, s: Screening)
    requires n < |ts| && Screens(ts, tileCount, strict, n, s)
    ensures Screens(ts, tileCount, strict, n + 1,
                    match Screen(ts[n], tileCount, strict)
                    case Accept(p) => s.(placed := s.placed + [p])
                    case Skip => s.(warnings := s.warnings + [n])
                    case Bad(_) => s.(errors := s.errors + [n]))
  {
    ScreenMeans(ts[n], tileCount, strict);
    TotalTake(ts, UsableOne(tileCount), n);
    hide Total;
    hide Keeps;
    hide Usable;
    hide PassedOver;
    if Usable(ts[n], tileCount) {
      var p := Screen(ts[n], tileCount, strict).tensor;
      hide Screen;
      assert KeptAt(ts, tileCount, n, s.placed + [p]);
      forall i | 0 <= i < n && Usable(ts[i], tileCount)
        ensures KeptAt(ts, tileCount, i, s.placed + [p])
      {
        KeptStays(ts, tileCount, i, s.placed, p);
      }
    }
    hide Screen;
    hide KeptAt;
  }

  /** The whole screening. */
  lemma {:induction false} ScreeningMeans(ts: seq<TensorRecord>, tileCount: int, strict: bool, n: nat)
    requires n <= |ts|
    ensures Screens(ts, tileCount, strict, n, ScreenAll(ts, tileCount, strict, n))
  {
    hide Screens;
    hide Screen;
    if n > 0 {
      ScreeningMeans(ts, tileCount, strict, n - 1);
      ScreensNext(ts, tileCount, strict, n - 1, ScreenAll(ts, tileCount, strict, n - 1));
    } else {
      NoRecords(ts, tileCount, strict);
    }
  }

  // --------------------------------------------------------------- positions

  function OnTile(tile: int): Placed -> int {
    (p: Placed) => if p.owner == tile then 1 else 0
  }

  function OnLower(tile: int): Placed -> int {
    (p: Placed) => if 0 <= p.owner < tile then 1 else 0
  }

  function Sooner(q: Placed): Placed -> int {
    (p: Placed) =>
      if p.owner == q.owner && (p.tensorId < q.tensorId || (p.tensorId == q.tensorId && p.sliceStart < q.sliceStart)) then 1 else 0
  }

  function Tied(q: Placed): Placed -> int {
    (p: Placed) => if p.owner == q.owner && p.tensorId == q.tensorId && p.sliceStart == q.sliceStart then 1 else 0
  }

  /** How many tensors of the same tile come before tensor i: by id, then by slice start, then as listed. */
  function Rank(placed: seq<Placed>, i: nat): int
    requires i < |placed|
  {
    Total(placed, Sooner(placed[i])) + Total(placed[..i], Tied(placed[i]))
  }

  lemma {:induction false} OrderIsTotal()
    ensures TotalOrder(PlacedOrder())
  {
  }

  lemma {:induction false} GroupNext(placed: seq<Placed>, tile: int)
    requires |placed| > 0
    ensures var init, x := placed[..|placed| - 1], placed[|placed| - 1];
            TileTensors(placed, tile)
            == if x.owner == tile then Insert(TileTensors(init, tile), x, PlacedOrder()) else TileTensors(init, tile)
  {
    hide Insert;
    var init, x := placed[..|placed| - 1], placed[|placed| - 1];
    if x.owner == tile {
      assert Group(placed, tile)[..|Group(init, tile)|] == Group(init, tile);
    } else {
      assert Group(placed, tile) == Group(init, tile) + [] == Group(init, tile);
    }
  }

  lemma {:induction false} GroupCounted(placed: seq<Placed>, tile: int)
    ensures |TileTensors(placed, tile)| == |Group(placed, tile)| == Total(placed, OnTile(tile))
  {
    if |placed| > 0 {
      GroupCounted(placed[..|placed| - 1], tile);
    }
  }

  lemma {:induction false} GroupedTotal(placed: seq<Placed>, tile: int, f: Placed -> int, h: Placed -> int)
    requires forall p: Placed :: h(p) == if p.owner == tile then f(p) else 0
    ensures Total(TileTensors(placed, tile), f) == Total(placed, h)
  {
    SortPermutes(Group(placed, tile), PlacedOrder());
    TotalPermuted(TileTensors(placed, tile), Group(placed, tile), f);
    GroupFolds(placed, tile, f, h);
  }

  lemma {:induction false} GroupFolds(placed: seq<Placed>, tile: int, f: Placed -> int, h: Placed -> int)
    requires forall p: Placed :: h(p) == if p.owner == tile then f(p) else 0
    ensures Total(Group(placed, tile), f) == Total(placed, h)
  {
    if |placed| > 0 {
      var init, x := placed[..|placed| - 1], placed[|placed| - 1];
      GroupFolds(init, tile, f, h);
      TotalSnoc(Group(init, tile), x, f);
      assert Group(init, tile) + [] == Group(init, tile);
    }
  }

  function Both(x: Placed): Placed -> int {
    (p: Placed) => Sooner(x)(p) + Tied(x)(p)
  }

  lemma {:induction false} UpToCounts(placed: seq<Placed>, x: Placed)
    ensures Total(TileTensors(placed, x.owner), UpTo(PlacedOrder(), x)) == Total(placed, Sooner(x)) + Total(placed, Tied(x))
  {
    GroupedTotal(placed, x.owner, UpTo(PlacedOrder(), x), Both(x));
    TotalAdd(placed, Sooner(x), Tied(x), Both(x));
    hide Total;
    hide TileTensors;
  }

  lemma {:induction false} RankNext(placed: seq<Placed>, i: nat)
    requires i < |placed|
    ensures var n := |placed| - 1;
            var init, x, q := placed[..n], placed[n], placed[i];
            Rank(placed, i) == if i == n then Total(init, Sooner(q)) + Total(init, Tied(q)) else Rank(init, i) + Sooner(q)(x)
  {
    var n := |placed| - 1;
    if i < n {
      assert placed[..n][..i] == placed[..i];
    }
  }

  lemma {:induction false} TileOrdered(placed: seq<Placed>, tile: int)
    ensures Ordered(TileTensors(placed, tile), PlacedOrder())
  {
    OrderIsTotal();
    SortOrders(Group(placed, tile), PlacedOrder());
    hide Sort;
    hide Group;
  }

  lemma {:induction false} SoonerIs(x: Placed, q: Placed)
    ensures Sooner(q)(x) == if x.owner == q.owner && !PlacedOrder()(q, x) then 1 else 0
  {
  }

  /** A tile's tensors in working order hold tensor i at its rank. */
  lemma {:induction false} AtRank(placed: seq<Placed>, i: nat)
    requires i < |placed|
    ensures var ts := TileTensors(placed, placed[i].owner);
            0 <= Rank(placed, i) < |ts| && ts[Rank(placed, i)] == placed[i]
  {
    hide *;
    var n, tile := |placed| - 1, placed[i].owner;
    var init, x := placed[..n], placed[n];
    GroupNext(placed, tile);
    RankNext(placed, i);
    OrderIsTotal();
    TileOrdered(init, tile);
    if i == n {
      UpToCounts(init, x);
      NewAt(TileTensors(init, tile), x, PlacedOrder());
    } else {
      AtRank(init, i);
      SoonerIs(x, placed[i]);
      if x.owner == tile {
        OldAt(TileTensors(init, tile), x, Rank(init, i), PlacedOrder());
      }
    }
  }

  // ------------------------------------------------------------------ blocks

  /** Tiles below n that own something. */
  function UsedBelow(placed: seq<Placed>, n: nat): nat {
    if n == 0 then 0 else UsedBelow(placed, n - 1) + if Total(placed, OnTile(n - 1)) > 0 then 1 else 0
  }

  /** Where the commands of a tile start: behind two for every tensor on a lower tile and one barrier for every lower tile
      in use. */
  function TileStart(placed: seq<Placed>, tile: nat): int {
    2 * Total(placed, OnLower(tile)) + UsedBelow(placed, tile)
  }

  lemma {:induction false} OneTileMore(placed: seq<Placed>, tile: nat)
    ensures Total(placed, OnLower(tile + 1)) == Total(placed, OnLower(tile)) + Total(placed, OnTile(tile))
    ensures Total(placed, OnLower(0)) == 0
  {
    TotalAdd(placed, OnLower(tile), OnTile(tile), OnLower(tile + 1));
    TotalZero(placed, OnLower(0));
  }

  lemma {:induction false} BlocksStep(placed: seq<Placed>, tile: nat, model: string, session: string)
    ensures var before := Blocks(placed, tile, model, session);
            Blocks(placed, tile + 1, model, session)
            == if Total(placed, OnTile(tile)) == 0 then before
               else before + Block(|before| + 1, tile, TileTensors(placed, tile), model, session)
    ensures Total(placed, OnTile(tile)) >= 0
  {
    GroupCounted(placed, tile);
    hide Block;
    hide TileTensors;
    hide Group;
    hide Total;
  }

  lemma {:induction false} BlocksSize(placed: seq<Placed>, tile: nat, model: string, session: string)
    ensures |Blocks(placed, tile, model, session)| == TileStart(placed, tile)
  {
    hide Blocks;
    hide Block;
    hide Total;
    hide TileTensors;
    hide OnTile;
    hide OnLower;
    if tile == 0 {
      OneTileMore(placed, 0);
      NoBlocks(placed, model, session);
    } else {
      BlocksSize(placed, tile - 1, model, session);
      BlocksStep(placed, tile - 1, model, session);
      GroupCounted(placed, tile - 1);
      OneTileMore(placed, tile - 1);
    }
  }

  lemma {:induction false} NoBlocks(placed: seq<Placed>, model: string, session: string)
    ensures Blocks(placed, 0, model, session) == []
  {
  }

  ghost predicate StartsWith(a: seq<Command>, b: seq<Command>) {
    |b| <= |a| && forall i :: 0 <= i < |b| ==> a[i] == b[i]
  }

  lemma {:induction false} BlocksGrow(placed: seq<Placed>, a: nat, b: nat, model: string, session: string)
    requires a <= b
    ensures StartsWith(Blocks(placed, b, model, session), Blocks(placed, a, model, session))
  {
    hide Block;
    hide TileTensors;
    hide Group;
    if a < b {
      BlocksGrow(placed, a, b - 1, model, session);
    }
  }

  lemma {:induction false} PlanStarts(placed: seq<Placed>, n: nat, model: string, session: string)
    ensures var blocks, cs := Blocks(placed, n, model, session), Commands(placed, n, model, session);
            && StartsWith(cs, blocks) && |cs| == |blocks| + 2
            && cs[|blocks|] == TileCommand(|blocks| + 1, QueryCounters, 0, model, session, |blocks|)
            && cs[|blocks| + 1] == TileCommand(|blocks| + 2, TraceSnapshot, 0, model, session, |blocks|)
  {
    hide Blocks;
    hide TileCommand;
  }

  lemma {:induction false} BlockAt(first: int, tile: int, ts: seq<Placed>, model: string, session: string, k: nat)
    requires |ts| > 0
    ensures var b := Block(first, tile, ts, model, session);
            && |b| == 2 * |ts| + 1
            && (k < |ts| ==>
                  && b[k] == LoadCommand(first + k, ts[k], model, session)
                  && b[|ts| + k] == ValidateCommand(first + |ts| + k, ts[k], model, session, first + k))
            && b[2 * |ts|] == TileCommand(first + 2 * |ts|, TileBarrier, tile, model, session, first + 2 * |ts| - 1)
  {
    hide LoadCommand;
    hide ValidateCommand;
    hide TileCommand;
  }

  // ------------------------------------------------------- what stands where

  /** A command for one placed tensor. */
  ghost predicate ForPlaced(c: Command, name: string, p: Placed, position: int, fence: int, model: string, session: string) {
    && CommandName(c.commandType) == name && c.commandId == position + 1 && c.fenceId == fence
    && c.tileId == p.owner && c.aimuId == p.aimu && c.modelId == model && c.sessionId == session
    && c.tensorId == Some(p.tensorId) && c.tensorName == Some(p.tensorName) && c.dtype == Some(p.dtype)
    && c.quantization == Some(p.quantization) && c.groupSize == p.groupSize && c.checksum == p.checksum
    && c.packedBytes == p.packedBytes && c.scaleBytes == p.scaleBytes && c.totalBytes == p.packedBytes + p.scaleBytes
  }

  /** A command for a tile. */
  ghost predicate ForTile(c: Command, name: string, tile: int, position: int, fence: int, model: string, session: string) {
    && CommandName(c.commandType) == name && c.commandId == position + 1 && c.fenceId == fence
    && c.tileId == tile && c.aimuId == Some(tile) && c.modelId == model && c.sessionId == session
    && c.tensorId.None? && c.tensorName.None? && c.dtype.None? && c.quantization.None? && c.groupSize.None? && c.checksum.None?
    && c.packedBytes == c.scaleBytes == c.totalBytes == 0
  }

  lemma {:induction false} CommandsMean(id: int, p: Placed, load: int, model: string, session: string)
    ensures ForPlaced(LoadCommand(id, p, model, session), "LOAD_TENSOR_TILE", p, id - 1, 0, model, session)
    ensures ForPlaced(ValidateCommand(id, p, model, session, load), "VALIDATE_TENSOR", p, id - 1, load, model, session)
  {
  }

  lemma {:induction false} TileCommandsMean(id: int, tile: int, fence: int, model: string, session: string)
    ensures ForTile(TileCommand(id, TileBarrier, tile, model, session, fence), "TILE_BARRIER", tile, id - 1, fence, model, session)
    ensures ForTile(TileCommand(id, QueryCounters, tile, model, session, fence), "QUERY_COUNTERS", tile, id - 1, fence, model, session)
    ensures ForTile(TileCommand(id, TraceSnapshot, tile, model, session, fence), "TRACE_SNAPSHOT", tile, id - 1, fence, model, session)
  {
  }

  lemma {:induction false} TileBlock(placed: seq<Placed>, n: nat, tile: nat, model: string, session: string, k: nat)
    requires tile < n && Total(placed, OnTile(tile)) > 0
    ensures var cs, first, ts := Commands(placed, n, model, session), TileStart(placed, tile), TileTensors(placed, tile);
            && first >= 0 && first + 2 * |ts| < |cs| && |ts| == Total(placed, OnTile(tile))
            && (k < |ts| ==>
                  && cs[first + k] == LoadCommand(first + 1 + k, ts[k], model, session)
                  && cs[first + |ts| + k] == ValidateCommand(first + 1 + |ts| + k, ts[k], model, session, first + 1 + k))
            && cs[first + 2 * |ts|] == TileCommand(first + 1 + 2 * |ts|, TileBarrier, tile, model, session, first + 2 * |ts|)
  {
    hide *;
    var before, ts := Blocks(placed, tile, model, session), TileTensors(placed, tile);
    BlocksSize(placed, tile, model, session);
    BlocksStep(placed, tile, model, session);
    GroupCounted(placed, tile);
    BlockAt(|before| + 1, tile, ts, model, session, k);
    var b := Block(|before| + 1, tile, ts, model, session);
    BlocksGrow(placed, tile + 1, n, model, session);
    PlanStarts(placed, n, model, session);
    InPlan(Commands(placed, n, model, session), Blocks(placed, n, model, session), before, b, 2 * |ts|);
    if k < |ts| {
      InPlan(Commands(placed, n, model, session), Blocks(placed, n, model, session), before, b, k);
      InPlan(Commands(placed, n, model, session), Blocks(placed, n, model, session), before, b, |ts| + k);
    }
  }

  lemma {:induction false} InPlan(cs: seq<Command>, blocks: seq<Command>, before: seq<Command>, b: seq<Command>, k: nat)
    requires StartsWith(cs, blocks) && StartsWith(blocks, before + b) && k < |b|
    ensures |before| + k < |cs| && cs[|before| + k] == b[k]
  {
    assert (before + b)[|before| + k] == b[k];
  }

  /** The load and the validation of tensor i: on its tile, by rank, all loads of the tile before all validations. */
  lemma {:induction false} PlacedCommands(placed: seq<Placed>, n: nat, model: string, session: string, i: nat)
    requires i < |placed| && 0 <= placed[i].owner < n
    ensures var cs, p := Commands(placed, n, model, session), placed[i];
            var a := TileStart(placed, p.owner) + Rank(placed, i);
            var b := a + Total(placed, OnTile(p.owner));
            && 0 <= a < b < |cs|
            && ForPlaced(cs[a], "LOAD_TENSOR_TILE", p, a, 0, model, session)
            && ForPlaced(cs[b], "VALIDATE_TENSOR", p, b, a + 1, model, session)
  {
    hide *;
    var p, k := placed[i], Rank(placed, i);
    AtRank(placed, i);
    GroupCounted(placed, p.owner);
    TileBlock(placed, n, p.owner, model, session, k);
    var first, count := TileStart(placed, p.owner), Total(placed, OnTile(p.owner));
    CommandsMean(first + 1 + k, p, 0, model, session);
    CommandsMean(first + 1 + count + k, p, first + 1 + k, model, session);
  }

  /** Behind them a barrier that waits for the last validation, on every tile in use. */
  lemma {:induction false} TileBarriers(placed: seq<Placed>, n: nat, model: string, session: string, tile: nat)
    requires tile < n && Total(placed, OnTile(tile)) > 0
    ensures var cs, at := Commands(placed, n, model, session), TileStart(placed, tile) + 2 * Total(placed, OnTile(tile));
            0 <= at < |cs| && ForTile(cs[at], "TILE_BARRIER", tile, at, at, model, session)
  {
    hide *;
    TileBlock(placed, n, tile, model, session, 0);
    var at := TileStart(placed, tile) + 2 * Total(placed, OnTile(tile));
    TileCommandsMean(at + 1, tile, at, model, session);
  }

  /** And at the end a counter query and a trace on tile 0, both waiting for the last barrier. */
  lemma {:induction false} ClosingCommands(placed: seq<Placed>, n: nat, model: string, session: string)
    ensures var cs, at := Commands(placed, n, model, session), TileStart(placed, n);
            && at >= 0 && |cs| == at + 2
            && ForTile(cs[at], "QUERY_COUNTERS", 0, at, at, model, session)
            && ForTile(cs[at + 1], "TRACE_SNAPSHOT", 0, at + 1, at, model, session)
  {
    hide *;
    BlocksSize(placed, n, model, session);
    PlanStarts(placed, n, model, session);
    TileCommandsMean(TileStart(placed, n) + 1, 0, TileStart(placed, n), model, session);
    TileCommandsMean(TileStart(placed, n) + 2, 0, TileStart(placed, n), model, session);
  }

  /** A plan is made exactly when every record is usable or passed over. */
  lemma {:induction false} PlanMeans(ts: seq<TensorRecord>, n: nat, strict: bool, model: string, session: string)
    ensures BuildPlan(ts, n, strict, model, session).Ok? <==> forall i :: 0 <= i < |ts| ==> Usable(ts[i], n) || PassedOver(ts[i], strict)
    ensures BuildPlan(ts, n, strict, model, session).Ok? ==>
              BuildPlan(ts, n, strict, model, session).value == Commands(ScreenAll(ts, n, strict, |ts|).placed, n, model, session)
  {
    var s := ScreenAll(ts, n, strict, |ts|);
    ScreeningMeans(ts, n, strict, |ts|);
    hide ScreenAll;
    hide Usable;
    hide PassedOver;
    hide KeptAt;
    hide Commands;
    hide Total;
    if |s.errors| > 0 {
      assert s.errors[0] in s.errors;
    }
  }

  /** The two counters taken from the report's tiles. */
  lemma {:induction false} TileCountersMean(tiles: seq<ReportTile>)
    ensures Total(tiles, CapacityFailed) == Total(tiles, (t: ReportTile) => if t.capacity == Some("FAIL") then 1 else 0)
    ensures Total(tiles, BandwidthObserved) == Total(tiles, (t: ReportTile) => if t.bandwidth.Some? && t.bandwidth.value in ["WARN", "FAIL"] then 1 else 0)
  {
    TotalSame(tiles, CapacityFailed, (t: ReportTile) => if t.capacity == Some("FAIL") then 1 else 0);
    TotalSame(tiles, BandwidthObserved, (t: ReportTile) => if t.bandwidth.Some? && t.bandwidth.value in ["WARN", "FAIL"] then 1 else 0);
  }
}
