module TrafficMeaning {
  // What the replay counters count and what the bandwidth model estimates, route by route, in plain numbers.

  import opened Common
  import opened Tally
  import opened Routes
  import opened RouteReplay
  import opened ReplayTheorems
  import opened Bandwidth
  import CP = CommandPlan
  import RB = RouteBuilding

  // ---------------------------------------------------------------- one route

  /** A barrier carries no packet; any other route its estimate, or one. */
  function Packets(r: Route): int {
    match r.routeType
    case BarrierRoute => 0
    case _ => if r.packetCount >= 1 then r.packetCount else 1
  }

  predicate PartialResult(t: RouteType) {
    match t
    case PartialReduce => true
    case LogitsReduce => true
    case _ => false
  }

  /** A status other than ok, warn and skipped fails, and in strict mode warn does too. */
  predicate Failing(r: Route, strict: bool) {
    match r.status
    case Healthy => false
    case Skipped => false
    case Suspect => strict
    case _ => true
  }

  predicate NamesCombination(b: Behavior) {
    match b
    case SumUp => true
    case Concat => true
    case Max => true
    case TopK => true
    case _ => false
  }

  function From(t: int, w: Route -> int): Route -> int {
    (r: Route) => if r.sourceTile == t then w(r) else 0
  }

  /** x for every listing of t. */
  function Listed(t: int, w: Route -> int): Route -> int {
    (r: Route) => multiset(r.destinationTiles)[t] * w(r)
  }

  function Bytes(): Route -> int {
    (r: Route) => r.payloadBytes
  }

  function Starts(r: Route): int {
    if PartialResult(r.routeType) then 1 else 0
  }

  function Barriers(r: Route): int {
    if r.routeType == BarrierRoute then 1 else 0
  }

  function Traces(r: Route): int {
    if r.routeType == TraceEvent then 1 else 0
  }

  function Failures(strict: bool): Route -> int {
    (r: Route) => if Failing(r, strict) then 1 else 0
  }

  /** Some route of the same reduction names how its parts are combined. */
  ghost predicate Combined(rs: seq<Route>, r: Route) {
    PartialResult(r.routeType)
    && exists k :: 0 <= k < |rs| && PartialResult(rs[k].routeType) && rs[k].reductionId == r.reductionId && NamesCombination(rs[k].behavior)
  }

  ghost function CombinedIn(rs: seq<Route>): Route -> int {
    (r: Route) => if Combined(rs, r) then 1 else 0
  }

  lemma {:induction false} HitsListed(tiles: seq<int>, t: int, x: int)
    ensures Hits(tiles, t, x) == multiset(tiles)[t] * x
  {
    if |tiles| > 0 {
      HitsListed(tiles[..|tiles| - 1], t, x);
      LastMultiset(tiles);
    }
  }

  lemma {:induction false} SentIs(rs: seq<Route>, t: int, w: Route -> int, v: Route -> int)
    requires forall r: Route :: w(r) == v(r)
    ensures Sent(rs, t, w) == Total(rs, From(t, v))
  {
    TotalSame(rs, SentBy(t, w), From(t, v));
  }

  lemma {:induction false} ReceivedIs(rs: seq<Route>, t: int, w: Route -> int, v: Route -> int)
    requires forall r: Route :: w(r) == v(r)
    ensures Received(rs, t, w) == Total(rs, Listed(t, v))
  {
    forall i | 0 <= i < |rs|
      ensures ReceivedBy(t, w)(rs[i]) == Listed(t, v)(rs[i])
    {
      HitsListed(rs[i].destinationTiles, t, w(rs[i]));
    }
    TotalSame(rs, ReceivedBy(t, w), Listed(t, v));
  }

  lemma {:induction false} CombinedIs(rs: seq<Route>, r: Route)
    ensures Combined(rs, r) <==> r.routeType.Reduces() && r.reductionId in CompleteIds(rs)
  {
  }

  // ------------------------------------------------------------------- replay

  /** The ten counters of a tile. */
  lemma {:induction false} CountersMean(rs: seq<Route>, n: nat, strict: bool, t: nat)
    requires t < n
    ensures var c := Replay(rs, n, strict).counters[t];
            && c.packetsSent == Total(rs, From(t, Packets)) && c.packetsReceived == Total(rs, Listed(t, Packets))
            && c.bytesSent == Total(rs, From(t, Bytes())) && c.bytesReceived == Total(rs, Listed(t, Bytes()))
            && c.reductionsStarted == Total(rs, From(t, Starts)) && c.reductionsCompleted == Total(rs, From(t, CombinedIn(rs)))
            && c.barriersStarted == c.barriersCompleted == Total(rs, From(t, Barriers))
            && c.traceEvents == Total(rs, From(t, Traces)) && c.routeFailures == Total(rs, From(t, Failures(strict)))
  {
    ReplayCounters(rs, n, strict, t);
    SentIs(rs, t, EffectivePackets, Packets);
    ReceivedIs(rs, t, EffectivePackets, Packets);
    SentIs(rs, t, PayloadOf, Bytes());
    ReceivedIs(rs, t, PayloadOf, Bytes());
    SentIs(rs, t, ReductionsOf, Starts);
    SentIs(rs, t, BarriersOf, Barriers);
    SentIs(rs, t, TracesOf, Traces);
    SentIs(rs, t, FailuresOf(strict), Failures(strict));
    forall r: Route
      ensures CompletionsOf(CompleteIds(rs))(r) == CombinedIn(rs)(r)
    {
      CombinedIs(rs, r);
    }
    SentIs(rs, t, CompletionsOf(CompleteIds(rs)), CombinedIn(rs));
    hide Sent;
    hide Received;
    hide Total;
    hide Replay;
  }

  function Estimate(): Route -> int {
    (r: Route) => r.packetCount
  }

  function Parts(r: Route): int {
    if r.routeType == PartialReduce then 1 else 0
  }

  /** The record a generated report keeps of a tile; every tile takes part in every barrier. */
  lemma {:induction false} SummaryMeans(p: CP.Plan, bytes: RB.TensorBytes, strict: bool, rep: RB.Report, t: nat)
    requires RB.MapPlan(p, bytes, strict) == Ok(rep) && t < |rep.tiles|
    ensures |rep.tiles| == p.header.tileCount
    ensures var s, rs := rep.tiles[t], rep.routes;
            && s.tileId == t
            && s.outPackets == Total(rs, From(t, Estimate())) && s.inPackets == Total(rs, Listed(t, Estimate()))
            && s.outBytes == Total(rs, From(t, Bytes())) && s.inBytes == Total(rs, Listed(t, Bytes()))
            && s.reductionsStarted == Total(rs, From(t, Parts)) && s.reductionsCompleted == Total(rs, Listed(t, Parts))
            && s.barriersStarted == s.barriersCompleted == Total(rs, Barriers)
            && s.routeFailures == 0 && s.bandwidth == None
  {
    var rs := rep.routes;
    SentIs(rs, t, PacketsOf, Estimate());
    ReceivedIs(rs, t, PacketsOf, Estimate());
    SentIs(rs, t, PayloadOf, Bytes());
    ReceivedIs(rs, t, PayloadOf, Bytes());
    SentIs(rs, t, PartialReductionsOf, Parts);
    ReceivedIs(rs, t, PartialReductionsOf, Parts);
    TotalSame(rs, BarriersOf, Barriers);
    RB.SummariesAt(rs, |rep.tiles|, t);
    hide Sent;
    hide Received;
    hide Total;
    hide RB.Summaries;
    hide RB.MapCommands;
  }

  ghost predicate NonDecreasing(s: seq<int>) {
    forall i, j :: 0 <= i < j < |s| ==> s[i] <= s[j]
  }

  ghost predicate ByRouteId(rs: seq<Route>) {
    forall i, j :: 0 <= i < j < |rs| ==> rs[i].routeId <= rs[j].routeId
  }

  function FailedAs(id: int, strict: bool): Route -> int {
    (r: Route) => if r.routeId == id && Failing(r, strict) then 1 else 0
  }

  lemma {:induction false} FailedNext(rs: seq<Route>, strict: bool)
    requires |rs| > 0
    ensures var before, r := FailedIds(rs[..|rs| - 1], strict), rs[|rs| - 1];
            FailedIds(rs, strict) == if Failing(r, strict) then before + [r.routeId] else before
  {
    assert FailedIds(rs[..|rs| - 1], strict) + [] == FailedIds(rs[..|rs| - 1], strict);
  }

  lemma {:induction false} FailedCounted(rs: seq<Route>, strict: bool, id: int)
    ensures multiset(FailedIds(rs, strict))[id] == Total(rs, FailedAs(id, strict))
  {
    if |rs| > 0 {
      FailedNext(rs, strict);
      FailedCounted(rs[..|rs| - 1], strict, id);
      hide FailedIds;
      hide Failing;
    }
  }

  lemma {:induction false} FailedOrdered(rs: seq<Route>, strict: bool)
    requires ByRouteId(rs)
    ensures NonDecreasing(FailedIds(rs, strict))
    ensures forall i :: 0 <= i < |FailedIds(rs, strict)| ==> |rs| > 0 && FailedIds(rs, strict)[i] <= rs[|rs| - 1].routeId
  {
    if |rs| > 0 {
      FailedNext(rs, strict);
      FailedOrdered(rs[..|rs| - 1], strict);
      hide FailedIds;
      hide Failing;
    }
  }

  /** Replay takes every route once, by increasing id, and notes the failing ones in that order. */
  lemma {:induction false} ReplayMeans(rs: seq<Route>, n: nat, strict: bool, id: int)
    ensures var o := Replay(rs, n, strict);
            && multiset(o.replayed) == multiset(rs) && ByRouteId(o.replayed)
            && multiset(o.notes)[id] == Total(rs, FailedAs(id, strict)) && NonDecreasing(o.notes)
  {
    var order := Sort(rs, RouteOrder());
    SortPermutes(rs, RouteOrder());
    RouteOrderIsTotal();
    SortOrders(rs, RouteOrder());
    OrderMeans(order);
    ReplayUnfolds(rs, n, strict);
    hide *;
    FailedCounted(order, strict, id);
    FailedOrdered(order, strict);
    TotalPermuted(order, rs, FailedAs(id, strict));
  }

  lemma {:induction false} OrderMeans(rs: seq<Route>)
    requires Ordered(rs, RouteOrder())
    ensures ByRouteId(rs)
  {
    forall i, j | 0 <= i < j < |rs|
      ensures rs[i].routeId <= rs[j].routeId
    {
      assert RouteOrder()(rs[i], rs[j]);
    }
  }

  // ---------------------------------------------------------------- bandwidth

  /** Up to four fifths of the target is fine, up to all of it is worth a warning. */
  function Grade(used: real, target: Option<real>): BwStatus {
    match target
    case None => Unknown
    case Some(t) =>
      if t > 0.0 && 5.0 * used <= 4.0 * t then PassBw
      else if t > 0.0 && used <= t then WarnBw
      else FailBw
  }

  lemma {:induction false} QuotientAtMost(x: real, t: real, c: real)
    requires t > 0.0
    ensures x / t <= c <==> x <= c * t
  {
    assert (x / t) * t == x;
  }

  lemma {:induction false} StatusMeans(required: real, target: Option<real>)
    ensures StatusOf(required, target) == Grade(required, target)
  {
    if target.Some? && target.value > 0.0 {
      QuotientAtMost(required, target.value, 0.8);
      QuotientAtMost(required, target.value, 1.0);
    }
  }

  /** Payload and overhead of a route. */
  function Wire(overhead: int): Route -> int {
    (r: Route) => r.payloadBytes + overhead * Packets(r)
  }

  /** A rate of GiB per second is 2^30 bytes: so many bytes per token, times tokens per second. */
  ghost predicate LoadOf(bandwidth: real, wire: int, args: BwArgs) {
    bandwidth * 1073741824.0 == wire as real * args.rate
  }

  lemma {:induction false} RateMeans(args: BwArgs, wire: int)
    ensures LoadOf(Rate(args, wire), wire, args)
  {
    var total := wire as real * args.rate;
    assert (total / 1073741824.0) * 1073741824.0 == total;
  }

  /** The estimate of one route. */
  lemma {:induction false} RouteEstimate(r: Route, args: BwArgs)
    ensures var s := SimulateRoute(r, args);
            && s.routeId == r.routeId && s.sourceTile == r.sourceTile && s.destinationTiles == r.destinationTiles
            && s.payload == r.payloadBytes && s.packets == Packets(r) && s.overhead == args.overhead * Packets(r)
            && s.wire == Wire(args.overhead)(r) && LoadOf(s.bandwidth, s.wire, args) && s.status == Grade(s.bandwidth, args.target)
            && s.latency == args.baseLatency + (if r.routeType == BarrierRoute || r.routeType == ControlAck then 0.0 else args.hopLatency)
  {
    var s := SimulateRoute(r, args);
    RateMeans(args, s.wire);
    StatusMeans(s.bandwidth, args.target);
    hide StatusOf;
    hide Rate;
    hide Grade;
    hide LoadOf;
  }

  /** The estimate of one tile: what its routes put on the wire, what reaches it, and the larger of the two against the
      target. */
  lemma {:induction false} TileEstimate(rs: seq<Route>, n: nat, t: nat, args: BwArgs)
    requires t < n
    ensures var s := Tiles(rs, n, args)[t];
            && s.tileId == t
            && s.outPayload == Total(rs, From(t, Bytes())) && s.inPayload == Total(rs, Listed(t, Bytes()))
            && s.outWire == Total(rs, From(t, Wire(args.overhead))) && s.inWire == Total(rs, Listed(t, Wire(args.overhead)))
            && LoadOf(s.outBandwidth, s.outWire, args) && LoadOf(s.inBandwidth, s.inWire, args)
            && s.status == Grade(if s.outBandwidth >= s.inBandwidth then s.outBandwidth else s.inBandwidth, args.target)
  {
    WireIs(args.overhead);
    SentIs(rs, t, PayloadOf, Bytes());
    ReceivedIs(rs, t, PayloadOf, Bytes());
    SentIs(rs, t, WireOf(args.overhead), Wire(args.overhead));
    ReceivedIs(rs, t, WireOf(args.overhead), Wire(args.overhead));
    var s := TileOf(rs, t, args);
    RateMeans(args, s.outWire);
    RateMeans(args, s.inWire);
    StatusMeans(Larger(s.outBandwidth, s.inBandwidth), args.target);
    hide StatusOf;
    hide Rate;
    hide Grade;
    hide LoadOf;
    hide Sent;
    hide Received;
    hide Total;
  }

  lemma {:induction false} WireIs(overhead: int)
    ensures forall r: Route :: WireOf(overhead)(r) == Wire(overhead)(r)
  {
  }

  /** Route i is the first of those with the largest load. */
  ghost predicate Bottleneck(loads: seq<real>, i: nat) {
    i < |loads| && (forall j :: 0 <= j < |loads| ==> loads[j] <= loads[i]) && forall j :: 0 <= j < i ==> loads[j] < loads[i]
  }

  /** The estimate of the whole fabric. */
  lemma {:induction false} FabricEstimate(rs: seq<Route>, n: nat, args: BwArgs)
    ensures var s := Simulated(rs, n, args);
            && s.totalPayload == Total(rs, Bytes()) && s.totalWire == Total(rs, Wire(args.overhead))
            && LoadOf(s.required, s.totalWire, args) && s.status == Grade(s.required, args.target) && s.target == args.target
            && Percentage(s.utilization, s.required, args.target)
  {
    hide *;
    var s := Simulated(rs, n, args);
    TotalOfResults(rs, args);
    TotalsAre(rs, args.overhead);
    SimulatedUnfolds(rs, n, args);
    RateMeans(args, s.totalWire);
    StatusMeans(s.required, args.target);
    PercentageMeans(s.required, args.target);
  }

  /** A hundred times what is used over what there is. */
  ghost predicate Percentage(u: Option<real>, used: real, target: Option<real>) {
    match target
    case None => u.None?
    case Some(t) => if t > 0.0 then u.Some? && u.value * t == 100.0 * used else u.None?
  }

  function PercentOf(used: real, target: Option<real>): Option<real> {
    if target.Some? && target.value > 0.0 then Some(used / target.value * 100.0) else None
  }

  lemma {:induction false} PercentageMeans(used: real, target: Option<real>)
    ensures Percentage(PercentOf(used, target), used, target)
  {
    if target.Some? && target.value > 0.0 {
      Percent(used, target.value);
    }
  }

  lemma {:induction false} TotalsAre(rs: seq<Route>, overhead: int)
    ensures Total(rs, PayloadOf) == Total(rs, Bytes()) && Total(rs, WireOf(overhead)) == Total(rs, Wire(overhead))
  {
    WireIs(overhead);
    TotalSame(rs, PayloadOf, Bytes());
    TotalSame(rs, WireOf(overhead), Wire(overhead));
  }

  lemma {:induction false} SimulatedUnfolds(rs: seq<Route>, n: nat, args: BwArgs)
    ensures var s := Simulated(rs, n, args);
            && s.totalPayload == Total(SimulateAll(rs, args), PayloadResult) && s.totalWire == Total(SimulateAll(rs, args), WireResult)
            && s.required == Rate(args, s.totalWire) && s.status == StatusOf(s.required, args.target) && s.target == args.target
            && s.utilization == PercentOf(s.required, args.target)
  {
    hide StatusOf;
    hide Rate;
    hide Total;
    hide FirstMax;
    hide Tiles;
    hide SimulateAll;
  }

  lemma {:induction false} Percent(x: real, t: real)
    requires t > 0.0
    ensures x / t * 100.0 * t == 100.0 * x
  {
    assert x / t * t == x;
  }

  /** The bottlenecks are the first route and the first tile with the largest load, if that is positive at all. */
  lemma {:induction false} BottlenecksMean(rs: seq<Route>, n: nat, args: BwArgs, i: nat, t: nat)
    ensures var s := Simulated(rs, n, args);
            && (Bottleneck(RouteLoads(SimulateAll(rs, args)), i) && i < |rs| ==>
                  s.bottleneckRoute == if SimulateRoute(rs[i], args).bandwidth > 0.0 then Some(rs[i].routeId) else None)
            && (Bottleneck(TileLoads(Tiles(rs, n, args)), t) && t < n ==>
                  var tile := TileOf(rs, t, args);
                  s.bottleneckTile == if tile.outBandwidth > 0.0 || tile.inBandwidth > 0.0 then Some(t) else None)
            && (|rs| == 0 ==> s.bottleneckRoute == None) && (n == 0 ==> s.bottleneckTile == None)
  {
    hide Total;
    hide StatusOf;
    hide Rate;
    hide Sent;
    hide Received;
    hide EffectivePackets;
    hide OverheadBytes;
  }
}
