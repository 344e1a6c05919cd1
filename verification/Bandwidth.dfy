module Bandwidth {
  // The fabric bandwidth model.
  // Wire bytes per route, per tile and in aggregate, and the status each earns.

  import opened Common
  import opened Tally
  import opened CommandPlan
  import opened Routes
  import opened RouteBuilding
  import opened RouteReplay
  import opened ReplayTheorems
  import opened RouteTheorems

  const GIB: real := 1073741824.0

  datatype BwArgs = BwArgs(rate: real, baseLatency: real, hopLatency: real, overhead: int, target: Option<real>)

  datatype BwStatus = PassBw | WarnBw | FailBw | Unknown {
    /** How bad a status is. */
    function Rank(): nat {
      match this
      case PassBw => 0
      case WarnBw => 1
      case FailBw => 2
      case Unknown => 0
    }
  }

  /** `_bandwidth_status`: up to 80 percent of the target passes, up to all of it warns. */
  function StatusOf(required: real, target: Option<real>): BwStatus {
    match target
    case None => Unknown
    case Some(t) =>
      if t <= 0.0 then FailBw
      else if required / t <= 0.8 then PassBw
      else if required / t <= 1.0 then WarnBw
      else FailBw
  }

  /** `total * rate / GIB`. */
  function Rate(args: BwArgs, wire: int): real {
    wire as real * args.rate / GIB
  }

  function OverheadBytes(overhead: int, packets: int): int {
    overhead * packets
  }

  /** Payload plus per-packet overhead. */
  function WireOf(overhead: int): Route -> int {
    (r: Route) => r.payloadBytes + OverheadBytes(overhead, EffectivePackets(r))
  }

  function Hops(t: RouteType): nat {
    if t.BarrierRoute? || t.ControlAck? then 0 else 1
  }

  datatype RouteResult = RouteResult(
    routeId: int, sourceTile: int, destinationTiles: seq<int>, payload: int, packets: int, overhead: int, wire: int,
    hops: nat, bandwidth: real, latency: real, status: BwStatus)

  /** `_simulate_route`. */
  function SimulateRoute(r: Route, args: BwArgs): RouteResult {
    var packets := EffectivePackets(r);
    var wire := r.payloadBytes + OverheadBytes(args.overhead, packets);
    RouteResult(r.routeId, r.sourceTile, r.destinationTiles, r.payloadBytes, packets, OverheadBytes(args.overhead, packets), wire,
                Hops(r.routeType), Rate(args, wire), args.baseLatency + Hops(r.routeType) as real * args.hopLatency,
                StatusOf(Rate(args, wire), args.target))
  }

  function SimulateAll(rs: seq<Route>, args: BwArgs): (rr: seq<RouteResult>)
    ensures |rr| == |rs|
  {
    seq(|rs|, i requires 0 <= i < |rs| => SimulateRoute(rs[i], args))
  }

  datatype TileResult = TileResult(
    tileId: int, outPayload: int, inPayload: int, outWire: int, inWire: int,
    outBandwidth: real, inBandwidth: real, status: BwStatus)

  function Larger(a: real, b: real): real {
    if a >= b then a else b
  }

  function TileResultFrom(t: int, outPayload: int, inPayload: int, outWire: int, inWire: int, args: BwArgs): TileResult {
    TileResult(t, outPayload, inPayload, outWire, inWire, Rate(args, outWire), Rate(args, inWire),
               StatusOf(Larger(Rate(args, outWire), Rate(args, inWire)), args.target))
  }

  /** A tile's result recomputed from the routes. */
  function TileOf(rs: seq<Route>, t: int, args: BwArgs): TileResult {
    TileResultFrom(t, Sent(rs, t, PayloadOf), Received(rs, t, PayloadOf),
                   Sent(rs, t, WireOf(args.overhead)), Received(rs, t, WireOf(args.overhead)), args)
  }

  function Tiles(rs: seq<Route>, n: nat, args: BwArgs): (ts: seq<TileResult>)
    ensures |ts| == n
  {
    seq(n, t requires 0 <= t < n => TileOf(rs, t, args))
  }

  /** Adds x at every listed tile of the array. */
  method Scatter(a: array<int>, tiles: seq<int>, x: int)
    modifies a
    ensures forall t :: 0 <= t < a.Length ==> a[t] == old(a[t]) + Hits(tiles, t, x)
  {
    for i := 0 to |tiles|
      invariant forall t :: 0 <= t < a.Length ==> a[t] == old(a[t]) + Hits(tiles[..i], t, x)
    {
      assert tiles[..i + 1][..i] == tiles[..i];
      if 0 <= tiles[i] < a.Length {
        a[tiles[i]] := a[tiles[i]] + x;
      }
    }
    assert tiles[..|tiles|] == tiles;
  }

  ghost predicate ArraySent(a: array<int>, rs: seq<Route>, w: Route -> int)
    reads a
  {
    forall t :: 0 <= t < a.Length ==> a[t] == Sent(rs, t, w)
  }

  ghost predicate ArrayReceived(a: array<int>, rs: seq<Route>, w: Route -> int)
    reads a
  {
    forall t :: 0 <= t < a.Length ==> a[t] == Received(rs, t, w)
  }

  method AddOutbound(a: array<int>, tile: int, x: int, ghost before: seq<Route>, ghost r: Route, ghost w: Route -> int)
    requires ArraySent(a, before, w) && tile == r.sourceTile && x == w(r)
    modifies a
    ensures ArraySent(a, before + [r], w)
  {
    hide Sent;
    if 0 <= tile < a.Length {
      a[tile] := a[tile] + x;
    }
    forall t | 0 <= t < a.Length
      ensures a[t] == Sent(before + [r], t, w)
    {
      TrafficSnoc(before, r, t, w);
    }
  }

  method AddInbound(a: array<int>, tiles: seq<int>, x: int, ghost before: seq<Route>, ghost r: Route, ghost w: Route -> int)
    requires ArrayReceived(a, before, w) && tiles == r.destinationTiles && x == w(r)
    modifies a
    ensures ArrayReceived(a, before + [r], w)
  {
    hide Received;
    hide Hits;
    Scatter(a, tiles, x);
    forall t | 0 <= t < a.Length
      ensures a[t] == Received(before + [r], t, w)
    {
      TrafficSnoc(before, r, t, w);
    }
  }

  /** The accumulation loop over the routes. */
  method AccumulateTiles(rr: seq<RouteResult>, args: BwArgs, ghost rs: seq<Route>,
                         outPayload: array<int>, inPayload: array<int>, outWire: array<int>, inWire: array<int>)
    requires rr == SimulateAll(rs, args)
    requires outPayload != inPayload && outPayload != outWire && outPayload != inWire
    requires inPayload != outWire && inPayload != inWire && outWire != inWire
    requires ArraySent(outPayload, [], PayloadOf) && ArrayReceived(inPayload, [], PayloadOf)
    requires ArraySent(outWire, [], WireOf(args.overhead)) && ArrayReceived(inWire, [], WireOf(args.overhead))
    modifies outPayload, inPayload, outWire, inWire
    ensures ArraySent(outPayload, rs, PayloadOf) && ArrayReceived(inPayload, rs, PayloadOf)
    ensures ArraySent(outWire, rs, WireOf(args.overhead)) && ArrayReceived(inWire, rs, WireOf(args.overhead))
  {
    ghost var w := WireOf(args.overhead);
    hide ArraySent;
    hide ArrayReceived;
    hide OverheadBytes;
    assert rs[..0] == [];
    for i := 0 to |rr|
      invariant ArraySent(outPayload, rs[..i], PayloadOf) && ArrayReceived(inPayload, rs[..i], PayloadOf)
      invariant ArraySent(outWire, rs[..i], w) && ArrayReceived(inWire, rs[..i], w)
    {
      assert rs[..i + 1] == rs[..i] + [rs[i]];
      var r := rr[i];
      assert r == SimulateRoute(rs[i], args) && r.wire == w(rs[i]) && r.payload == PayloadOf(rs[i]);
      AddOutbound(outPayload, r.sourceTile, r.payload, rs[..i], rs[i], PayloadOf);
      AddOutbound(outWire, r.sourceTile, r.wire, rs[..i], rs[i], w);
      AddInbound(inPayload, r.destinationTiles, r.payload, rs[..i], rs[i], PayloadOf);
      AddInbound(inWire, r.destinationTiles, r.wire, rs[..i], rs[i], w);
    }
    assert rs[..|rr|] == rs;
  }

  /** `_simulate_tiles`: four running arrays, then one result per tile. */
  method SimulateTiles(rr: seq<RouteResult>, tileCount: nat, args: BwArgs, ghost rs: seq<Route>) returns (results: seq<TileResult>)
    requires rr == SimulateAll(rs, args)
    ensures results == Tiles(rs, tileCount, args)
  {
    var outPayload, inPayload := new int[tileCount](_ => 0), new int[tileCount](_ => 0);
    var outWire, inWire := new int[tileCount](_ => 0), new int[tileCount](_ => 0);
    AccumulateTiles(rr, args, rs, outPayload, inPayload, outWire, inWire);
    results := [];
    hide TileResultFrom;
    for t := 0 to tileCount
      invariant results == Tiles(rs, tileCount, args)[..t]
    {
      results := results + [TileResultFrom(t, outPayload[t], inPayload[t], outWire[t], inWire[t], args)];
      assert results[t] == TileOf(rs, t, args);
    }
  }

  // -------------------------------------------------------------- aggregate

  /** Index of the first largest element: `max(..., key=...)`. */
  function FirstMax(s: seq<real>): (k: nat)
    requires |s| > 0
    ensures k < |s| && (forall i :: 0 <= i < |s| ==> s[i] <= s[k]) && forall i :: 0 <= i < k ==> s[i] < s[k]
  {
    if |s| == 1 then 0
    else
      var k := FirstMax(s[..|s| - 1]);
      if s[|s| - 1] > s[k] then |s| - 1 else k
  }

  datatype Aggregate = Aggregate(
    totalPayload: int, totalWire: int, required: real, target: Option<real>, utilization: Option<real>, status: BwStatus,
    bottleneckRoute: Option<int>, bottleneckTile: Option<int>)

  function RouteLoads(rr: seq<RouteResult>): (s: seq<real>)
    ensures |s| == |rr|
  {
    seq(|rr|, i requires 0 <= i < |rr| => rr[i].bandwidth)
  }

  function TileLoads(ts: seq<TileResult>): (s: seq<real>)
    ensures |s| == |ts|
  {
    seq(|ts|, i requires 0 <= i < |ts| => Larger(ts[i].outBandwidth, ts[i].inBandwidth))
  }

  function PayloadResult(r: RouteResult): int {
    r.payload
  }

  function WireResult(r: RouteResult): int {
    r.wire
  }

  /** `_simulate_aggregate`. */
  function SimulateAggregate(rr: seq<RouteResult>, ts: seq<TileResult>, args: BwArgs): Aggregate {
    var wire := Total(rr, WireResult);
    var required := Rate(args, wire);
    Aggregate(Total(rr, PayloadResult), wire, required, args.target,
              if args.target.Some? && args.target.value > 0.0 then Some(required / args.target.value * 100.0) else None,
              StatusOf(required, args.target),
              if |rr| > 0 && RouteLoads(rr)[FirstMax(RouteLoads(rr))] > 0.0 then Some(rr[FirstMax(RouteLoads(rr))].routeId) else None,
              if |ts| > 0 && TileLoads(ts)[FirstMax(TileLoads(ts))] > 0.0 then Some(ts[FirstMax(TileLoads(ts))].tileId) else None)
  }

  function Simulated(rs: seq<Route>, tileCount: nat, args: BwArgs): Aggregate {
    SimulateAggregate(SimulateAll(rs, args), Tiles(rs, tileCount, args), args)
  }

  lemma {:induction false} TotalOfResults(rs: seq<Route>, args: BwArgs)
    ensures Total(SimulateAll(rs, args), WireResult) == Total(rs, WireOf(args.overhead))
    ensures Total(SimulateAll(rs, args), PayloadResult) == Total(rs, PayloadOf)
  {
    if |rs| > 0 {
      TotalOfResults(rs[..|rs| - 1], args);
      assert SimulateAll(rs, args)[..|rs| - 1] == SimulateAll(rs[..|rs| - 1], args);
    }
  }

  // ----------------------------------------------------------- conservation

  lemma {:induction false} WireIsPayloadPlusOverhead(rs: seq<Route>, overhead: int)
    ensures Total(rs, WireOf(overhead)) == Total(rs, PayloadOf) + OverheadBytes(overhead, Total(rs, EffectivePackets))
  {
    hide OverheadBytes;
    if |rs| > 0 {
      var init, r := rs[..|rs| - 1], rs[|rs| - 1];
      WireIsPayloadPlusOverhead(init, overhead);
      OverheadAdds(overhead, Total(init, EffectivePackets), EffectivePackets(r));
    } else {
      NoOverhead(overhead);
    }
  }

  lemma {:induction false} OverheadAdds(overhead: int, a: int, b: int)
    ensures OverheadBytes(overhead, a + b) == OverheadBytes(overhead, a) + OverheadBytes(overhead, b)
  {
  }

  lemma {:induction false} NoOverhead(overhead: int)
    ensures OverheadBytes(overhead, 0) == 0
  {
  }

  function SumOutWire(ts: seq<TileResult>): int {
    if |ts| == 0 then 0 else SumOutWire(ts[..|ts| - 1]) + ts[|ts| - 1].outWire
  }

  function SumSent(cs: seq<Counters>): (int, int) {
    if |cs| == 0 then (0, 0)
    else
      var (packets, bytes) := SumSent(cs[..|cs| - 1]);
      (packets + cs[|cs| - 1].packetsSent, bytes + cs[|cs| - 1].bytesSent)
  }

  lemma {:induction false} TilesSumUp(rs: seq<Route>, n: nat, args: BwArgs)
    ensures SumOutWire(Tiles(rs, n, args)) == SumTiles(rs, n, WireOf(args.overhead))
  {
    if n > 0 {
      TilesSumUp(rs, n - 1, args);
      assert Tiles(rs, n, args)[..n - 1] == Tiles(rs, n - 1, args);
      hide Sent;
      hide Received;
      hide WireOf;
    }
  }

  lemma {:induction false} CountersSumUp(rs: seq<Route>, n: nat, strict: bool)
    ensures SumSent(FinalCounters(rs, n, strict)) == (SumTiles(rs, n, EffectivePackets), SumTiles(rs, n, PayloadOf))
  {
    if n > 0 {
      CountersSumUp(rs, n - 1, strict);
      assert FinalCounters(rs, n, strict)[..n - 1] == FinalCounters(rs, n - 1, strict);
      hide Sent;
      hide Received;
      hide CompleteIds;
    }
  }

  /** When every source is a tile of the report, the tiles' outbound wire bytes add up to the aggregate, and
      the aggregate is what replay saw sent: its payload plus the overhead of its packets. */
  lemma {:induction false} WireIsConserved(rs: seq<Route>, tileCount: nat, args: BwArgs, strict: bool)
    requires SourcesBelow(rs, tileCount)
    ensures SumOutWire(Tiles(rs, tileCount, args)) == Simulated(rs, tileCount, args).totalWire
    ensures var (packets, bytes) := SumSent(Replay(rs, tileCount, strict).counters);
            && Simulated(rs, tileCount, args).totalWire == bytes + OverheadBytes(args.overhead, packets)
            && Simulated(rs, tileCount, args).totalPayload == bytes
  {
    TotalOfResults(rs, args);
    TilesSumUp(rs, tileCount, args);
    Conservation(rs, tileCount, WireOf(args.overhead));
    Conservation(rs, tileCount, EffectivePackets);
    Conservation(rs, tileCount, PayloadOf);
    WireIsPayloadPlusOverhead(rs, args.overhead);
    SortPermutes(rs, RouteOrder());
    CountersPermuted(Sort(rs, RouteOrder()), rs, tileCount, strict);
    CountersSumUp(rs, tileCount, strict);
    ReplayUnfolds(rs, tileCount, strict);
    hide Replay;
    hide Total;
    hide Tiles;
    hide SimulateAll;
    hide FinalCounters;
    hide OverheadBytes;
    hide WireOf;
    hide FirstMax;
  }

  // ------------------------------------------------------------- domination

  lemma {:induction false} RateMonotone(args: BwArgs, a: int, b: int)
    requires args.rate > 0.0 && a <= b
    ensures Rate(args, a) <= Rate(args, b)
  {
    ScaleMonotone(a as real, b as real, args.rate);
  }

  lemma {:induction false} ScaleMonotone(a: real, b: real, x: real)
    requires x > 0.0 && a <= b
    ensures a * x / GIB <= b * x / GIB
  {
    assert (b - a) * x >= 0.0;
    assert b * x - a * x == (b - a) * x;
  }

  lemma {:induction false} DivideMonotone(a: real, b: real, t: real)
    requires t > 0.0 && a <= b
    ensures a / t <= b / t
  {
  }

  /** More required bandwidth never earns a better status. */
  lemma {:induction false} StatusMonotone(a: real, b: real, target: Option<real>)
    requires a <= b
    ensures StatusOf(a, target).Rank() <= StatusOf(b, target).Rank()
    ensures StatusOf(a, target).Unknown? <==> StatusOf(b, target).Unknown?
  {
    if target.Some? && target.value > 0.0 {
      DivideMonotone(a, b, target.value);
    }
  }

  ghost predicate Unrepeated(rs: seq<Route>) {
    forall i :: 0 <= i < |rs| ==> NoRepeats(rs[i].destinationTiles)
  }

  lemma {:induction false} WireNonNegative(rs: seq<Route>, overhead: int)
    requires NonNegative(rs) && overhead >= 0
    ensures forall i :: 0 <= i < |rs| ==> WireOf(overhead)(rs[i]) >= 0
  {
    forall i | 0 <= i < |rs|
      ensures OverheadBytes(overhead, EffectivePackets(rs[i])) >= 0
    {
      MulMonotone(0, overhead, EffectivePackets(rs[i]));
    }
  }

  lemma {:induction false} TrafficBelowTotal(rs: seq<Route>, t: int, w: Route -> int)
    requires Unrepeated(rs) && forall i :: 0 <= i < |rs| ==> w(rs[i]) >= 0
    ensures Sent(rs, t, w) <= Total(rs, w) && Received(rs, t, w) <= Total(rs, w)
  {
    forall i | 0 <= i < |rs|
      ensures ReceivedBy(t, w)(rs[i]) <= w(rs[i])
    {
      HitsOnce(rs[i].destinationTiles, t, w(rs[i]));
    }
    TotalMonotone(rs, SentBy(t, w), w);
    TotalMonotone(rs, ReceivedBy(t, w), w);
  }

  lemma {:induction false} ElementBelowTotal(rs: seq<Route>, i: nat, w: Route -> int)
    requires i < |rs| && forall k :: 0 <= k < |rs| ==> w(rs[k]) >= 0
    ensures w(rs[i]) <= Total(rs, w)
  {
    TotalWithout(rs, i, w);
    TotalZero(Without(rs, i), (r: Route) => 0);
    TotalMonotone(Without(rs, i), (r: Route) => 0, w);
  }

  ghost predicate NoWorse(s: BwStatus, aggregate: BwStatus) {
    s.Rank() <= aggregate.Rank() && (s.Unknown? <==> aggregate.Unknown?)
  }

  /** When no route lists a destination twice, no route and no tile is in worse standing than the fabric as
      a whole, for every target. */
  lemma {:induction false} AggregateDominates(rs: seq<Route>, tileCount: nat, args: BwArgs)
    requires args.rate > 0.0 && args.overhead >= 0 && NonNegative(rs) && Unrepeated(rs)
    ensures forall i :: 0 <= i < |rs| ==> NoWorse(SimulateRoute(rs[i], args).status, Simulated(rs, tileCount, args).status)
    ensures forall t :: 0 <= t < tileCount ==> NoWorse(TileOf(rs, t, args).status, Simulated(rs, tileCount, args).status)
  {
    TotalOfResults(rs, args);
    WireNonNegative(rs, args.overhead);
    var w := WireOf(args.overhead);
    forall i | 0 <= i < |rs|
      ensures NoWorse(SimulateRoute(rs[i], args).status, Simulated(rs, tileCount, args).status)
    {
      ElementBelowTotal(rs, i, w);
      RateMonotone(args, w(rs[i]), Total(rs, w));
      StatusMonotone(Rate(args, w(rs[i])), Rate(args, Total(rs, w)), args.target);
      hide *;
      RouteStatusIs(rs[i], args);
      AggregateStatusIs(rs, tileCount, args);
      NoWorseIs(SimulateRoute(rs[i], args).status, Simulated(rs, tileCount, args).status);
    }
    forall t | 0 <= t < tileCount
      ensures NoWorse(TileOf(rs, t, args).status, Simulated(rs, tileCount, args).status)
    {
      TrafficBelowTotal(rs, t, w);
      RateMonotone(args, Sent(rs, t, w), Total(rs, w));
      RateMonotone(args, Received(rs, t, w), Total(rs, w));
      var load := Larger(Rate(args, Sent(rs, t, w)), Rate(args, Received(rs, t, w)));
      StatusMonotone(load, Rate(args, Total(rs, w)), args.target);
      hide *;
      TileStatusIs(rs, t, args);
      AggregateStatusIs(rs, tileCount, args);
      NoWorseIs(TileOf(rs, t, args).status, Simulated(rs, tileCount, args).status);
    }
  }

  lemma {:induction false} MapperRoutesUnrepeated(rs: seq<Route>, tileCount: nat)
    requires MapperRoutes(rs, tileCount)
    ensures Unrepeated(rs) && SourcesBelow(rs, tileCount)
  {
    forall i | 0 <= i < |rs|
      ensures NoRepeats(rs[i].destinationTiles) && 0 <= rs[i].sourceTile < tileCount
    {
      assert MapperRoute(rs[i], tileCount);
    }
  }

  /** The routes of a plan whose commands sit on its tiles meet these conditions exactly when no send or reduce
      with somewhere to go has a negative size. */
  lemma {:induction false} MapperRoutesAreSensible(tileCount: nat, bytes: TensorBytes, cmds: seq<Command>, n: nat)
    requires n <= |cmds| && OnTiles(cmds, tileCount)
    ensures var rs := MapCommands(tileCount, bytes, cmds, n).routes;
            && Unrepeated(rs) && SourcesBelow(rs, tileCount)
            && (NonNegative(rs) <==> NoneNegative(tileCount, cmds, n))
  {
    hide *;
    MappedShape(tileCount, bytes, cmds, n);
    MapperRoutesUnrepeated(MapCommands(tileCount, bytes, cmds, n).routes, tileCount);
  }

  lemma {:induction false} NoWorseIs(s: BwStatus, aggregate: BwStatus)
    ensures NoWorse(s, aggregate) <==> s.Rank() <= aggregate.Rank() && (s.Unknown? <==> aggregate.Unknown?)
  {
  }

  lemma {:induction false} RouteStatusIs(r: Route, args: BwArgs)
    ensures SimulateRoute(r, args).status == StatusOf(Rate(args, WireOf(args.overhead)(r)), args.target)
  {
    hide StatusOf;
    hide Rate;
    hide OverheadBytes;
  }

  lemma {:induction false} TileStatusIs(rs: seq<Route>, t: int, args: BwArgs)
    ensures TileOf(rs, t, args).status
         == StatusOf(Larger(Rate(args, Sent(rs, t, WireOf(args.overhead))), Rate(args, Received(rs, t, WireOf(args.overhead)))), args.target)
  {
    hide StatusOf;
    hide Rate;
    hide Sent;
    hide Received;
  }

  lemma {:induction false} AggregateStatusIs(rs: seq<Route>, tileCount: nat, args: BwArgs)
    ensures Simulated(rs, tileCount, args).status == StatusOf(Rate(args, Total(rs, WireOf(args.overhead))), args.target)
  {
    TotalOfResults(rs, args);
    hide StatusOf;
    hide Rate;
    hide Total;
    hide FirstMax;
    hide Tiles;
    hide SimulateAll;
  }

  /** A tile's load stays below the aggregate for every target exactly when its wire bytes do; a repeated
      destination is charged to its tile every time but to the fabric once, and breaks this. */
  lemma {:induction false} TileDominatedIff(rs: seq<Route>, tileCount: nat, args: BwArgs, t: nat)
    requires args.rate > 0.0 && t < tileCount && Total(rs, WireOf(args.overhead)) >= 0
    ensures (forall target :: NoWorse(TileOf(rs, t, args.(target := target)).status, Simulated(rs, tileCount, args.(target := target)).status))
       <==> TileOf(rs, t, args).outWire <= Total(rs, WireOf(args.overhead)) && TileOf(rs, t, args).inWire <= Total(rs, WireOf(args.overhead))
  {
    var w := WireOf(args.overhead);
    var o, i, a := Sent(rs, t, w), Received(rs, t, w), Total(rs, w);
    TileWires(rs, t, args);
    var load := Larger(Rate(args, o), Rate(args, i));
    RateCompare(args, o, a);
    RateCompare(args, i, a);
    RateMonotone(args, 0, a);
    StatusCompare(load, Rate(args, a));
    hide *;
    LargerBelow(Rate(args, o), Rate(args, i), Rate(args, a));
    forall target
      ensures NoWorse(TileOf(rs, t, args.(target := target)).status, Simulated(rs, tileCount, args.(target := target)).status)
         <==> NoWorse(StatusOf(load, target), StatusOf(Rate(args, a), target))
    {
      var retargeted := args.(target := target);
      TileStatusIs(rs, t, retargeted);
      AggregateStatusIs(rs, tileCount, retargeted);
      SameRate(args, target, o);
      SameRate(args, target, i);
      SameRate(args, target, a);
    }
  }

  lemma {:induction false} TileWires(rs: seq<Route>, t: int, args: BwArgs)
    ensures TileOf(rs, t, args).outWire == Sent(rs, t, WireOf(args.overhead))
    ensures TileOf(rs, t, args).inWire == Received(rs, t, WireOf(args.overhead))
  {
    hide Sent;
    hide Received;
    hide StatusOf;
    hide Rate;
  }

  lemma {:induction false} SameRate(args: BwArgs, target: Option<real>, x: int)
    ensures Rate(args.(target := target), x) == Rate(args, x)
  {
  }

  lemma {:induction false} LargerBelow(a: real, b: real, c: real)
    ensures Larger(a, b) <= c <==> a <= c && b <= c
  {
  }

  lemma {:induction false} RateCompare(args: BwArgs, a: int, b: int)
    requires args.rate > 0.0
    ensures Rate(args, a) <= Rate(args, b) <==> a <= b
    ensures Rate(args, 0) == 0.0
  {
    if a <= b {
      RateMonotone(args, a, b);
    } else {
      assert (a - b) as real * args.rate > 0.0;
      assert a as real * args.rate - b as real * args.rate == (a - b) as real * args.rate;
    }
  }

  /** Two loads compare the same way under every target exactly when the first is at most the second. */
  lemma {:induction false} StatusCompare(a: real, b: real)
    requires b >= 0.0
    ensures (forall target :: NoWorse(StatusOf(a, target), StatusOf(b, target))) <==> a <= b
  {
    if a <= b {
      forall target
        ensures NoWorse(StatusOf(a, target), StatusOf(b, target))
      {
        StatusMonotone(a, b, target);
      }
    } else {
      var target := Some(if b > 0.0 then b else a);
      DivideMonotone(b, a, target.value);
      Above(a, b, target.value);
      assert !NoWorse(StatusOf(a, target), StatusOf(b, target));
    }
  }

  lemma {:induction false} Above(a: real, b: real, t: real)
    requires a > b >= 0.0 && t == if b > 0.0 then b else a
    ensures t > 0.0
    ensures b > 0.0 ==> b / t == 1.0 && a / t > 1.0
    ensures b == 0.0 ==> b / t == 0.0 && a / t == 1.0
  {
    if b > 0.0 {
      assert a / t - b / t == (a - b) / t;
    }
  }

  lemma {:induction false} TwoHits(tiles: seq<int>, t: nat, x: int)
    requires tiles == [t, t]
    ensures Hits(tiles, t, x) == 2 * x
  {
    assert tiles[..1] == [t] && tiles[..1][..0] == [];
    assert Hits([t], t, x) == x;
  }

  /** The failing family is not empty: one route that lists a tile twice already overloads it. */
  lemma {:induction false} RepeatedDestinationOverloads(r: Route, t: nat, args: BwArgs)
    requires r.destinationTiles == [t, t] && WireOf(args.overhead)(r) > 0
    ensures TileOf([r], t, args).inWire > Total([r], WireOf(args.overhead))
  {
    var w := WireOf(args.overhead);
    TotalSnoc([], r, w);
    TrafficSnoc([], r, t, w);
    TwoHits(r.destinationTiles, t, w(r));
    assert [] + [r] == [r];
    assert Received([], t, w) == 0;
    TileWires([r], t, args);
    hide TileOf;
  }
}
