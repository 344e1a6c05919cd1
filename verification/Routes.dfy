/** Fabric routes and the traffic they put on each tile. */
module Routes {
  import opened Common
  import opened Tally

  datatype RouteType =
    | ActivationSend | ActivationBroadcast | PartialReduce | LogitsReduce | KvTransfer
    | BarrierRoute | TraceEvent | ControlAck
    | OtherRoute(name: string)
  {
    predicate CarriesData() {
      ActivationSend? || ActivationBroadcast? || PartialReduce? || LogitsReduce? || KvTransfer?
    }

    predicate Reduces() {
      PartialReduce? || LogitsReduce?
    }

    predicate MayTargetSource() {
      BarrierRoute? || TraceEvent? || ControlAck?
    }
  }

  datatype Behavior = NoReduction | SumUp | Concat | Max | TopK | PassThrough | OtherBehavior(name: string) {
    predicate Explicit() {
      SumUp? || Concat? || Max? || TopK?
    }
  }

  datatype Ordering = InOrder | AnyOrder | Barriered | OtherOrdering(name: string)

  datatype RouteStatus = Healthy | Suspect | Failed | Skipped | OtherStatus(name: string)

  datatype Route = Route(
    routeId: int, routeType: RouteType, sourceTile: int, destinationTiles: seq<int>,
    sourceTensor: Option<string>, sourceCommandId: int, payloadBytes: int, packetCount: int,
    dependencyFence: int, reductionId: int, behavior: Behavior, ordering: Ordering, traceId: int, status: RouteStatus)

  // ----------------------------------------------------------------- traffic

  /** x for every time the tile is listed. */
  function Hits(tiles: seq<int>, tile: int, x: int): int {
    if |tiles| == 0 then 0
    else Hits(tiles[..|tiles| - 1], tile, x) + if tiles[|tiles| - 1] == tile then x else 0
  }

  function PacketsOf(r: Route): int {
    r.packetCount
  }

  function PayloadOf(r: Route): int {
    r.payloadBytes
  }

  function PartialReductionsOf(r: Route): int {
    if r.routeType.PartialReduce? then 1 else 0
  }

  function BarriersOf(r: Route): int {
    if r.routeType.BarrierRoute? then 1 else 0
  }

  function SentBy(tile: int, w: Route -> int): Route -> int {
    (r: Route) => if r.sourceTile == tile then w(r) else 0
  }

  function ReceivedBy(tile: int, w: Route -> int): Route -> int {
    (r: Route) => Hits(r.destinationTiles, tile, w(r))
  }

  /** What the routes make the tile send, counted with weight w. */
  function Sent(rs: seq<Route>, tile: int, w: Route -> int): int {
    Total(rs, SentBy(tile, w))
  }

  /** What the routes deliver to the tile, counted with weight w. */
  function Received(rs: seq<Route>, tile: int, w: Route -> int): int {
    Total(rs, ReceivedBy(tile, w))
  }

  lemma {:induction false} TrafficSnoc(rs: seq<Route>, r: Route, tile: int, w: Route -> int)
    ensures Sent(rs + [r], tile, w) == Sent(rs, tile, w) + if r.sourceTile == tile then w(r) else 0
    ensures Received(rs + [r], tile, w) == Received(rs, tile, w) + Hits(r.destinationTiles, tile, w(r))
  {
    TotalSnoc(rs, r, SentBy(tile, w));
    TotalSnoc(rs, r, ReceivedBy(tile, w));
  }

  lemma {:induction false} HitsZero(tiles: seq<int>, tile: int)
    ensures Hits(tiles, tile, 0) == 0
  {
    if |tiles| > 0 {
      HitsZero(tiles[..|tiles| - 1], tile);
    }
  }

  lemma {:induction false} HitsNonNegative(tiles: seq<int>, tile: int, x: int)
    requires x >= 0
    ensures Hits(tiles, tile, x) >= 0
  {
    if |tiles| > 0 {
      HitsNonNegative(tiles[..|tiles| - 1], tile, x);
    }
  }

  lemma {:induction false} HitsAbsent(tiles: seq<int>, tile: int, x: int)
    requires tile !in tiles
    ensures Hits(tiles, tile, x) == 0
  {
    if |tiles| > 0 {
      HitsAbsent(tiles[..|tiles| - 1], tile, x);
    }
  }

  ghost predicate NoRepeats(tiles: seq<int>) {
    forall i, j :: 0 <= i < j < |tiles| ==> tiles[i] != tiles[j]
  }

  /** Without repeated destinations a tile receives each route at most once. */
  lemma {:induction false} HitsOnce(tiles: seq<int>, tile: int, x: int)
    requires NoRepeats(tiles)
    ensures Hits(tiles, tile, x) == if tile in tiles then x else 0
  {
    if |tiles| > 0 {
      var init := tiles[..|tiles| - 1];
      if tiles[|tiles| - 1] == tile {
        HitsAbsent(init, tile, x);
      } else {
        HitsOnce(init, tile, x);
        assert tile in tiles <==> tile in init;
      }
    }
  }

  lemma {:induction false} SnocNoRepeats(tiles: seq<int>, t: int)
    requires NoRepeats(tiles) && t !in tiles
    ensures NoRepeats(tiles + [t])
  {
  }

  /** `list(range(n))` and `[t for t in range(n) if t != skip]`. */
  function AllTiles(n: nat): (s: seq<int>)
    ensures forall t :: t in s <==> 0 <= t < n
    ensures NoRepeats(s)
  {
    if n == 0 then []
    else
      var s := AllTiles(n - 1) + [n - 1];
      assert forall t :: t in s <==> t in AllTiles(n - 1) || t == n - 1;
      SnocNoRepeats(AllTiles(n - 1), n - 1);
      s
  }

  function OtherTiles(n: nat, skip: int): (s: seq<int>)
    ensures forall t :: t in s <==> 0 <= t < n && t != skip
    ensures NoRepeats(s)
  {
    if n == 0 then []
    else if n - 1 == skip then OtherTiles(n - 1, skip)
    else
      var s := OtherTiles(n - 1, skip) + [n - 1];
      assert forall t :: t in s <==> t in OtherTiles(n - 1, skip) || t == n - 1;
      SnocNoRepeats(OtherTiles(n - 1, skip), n - 1);
      s
  }
}
