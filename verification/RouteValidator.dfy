/** The fabric route report validator. */
module RouteValidation {
  import opened Common
  import opened Tally
  import opened Routes
  import opened RouteBuilding

  datatype Rule =
    | UnsupportedVersion | InvalidTileCount | InvalidRouteCount | InvalidPacketEstimate | InvalidPayloadEstimate
    | InvalidStatus | StrictStatusNotPass
    | DuplicateRouteId | UnsupportedPacketType | InvalidTileTarget | EmptyDestination | SelfRoute
    | InvalidPayloadBytes | ZeroPayload | InvalidRoutePacketCount | ZeroPacketCount
    | UnknownReductionBehavior | ReductionNotExplicit | InvalidReductionId
    | UnknownOrderingPolicy | BarrierOrdering | UnknownRouteStatus
    | InvalidTileId | DuplicateTileId | InvalidTileField | InvalidBandwidth
    | RouteCountMismatch | TileOutboundMismatch | TileInboundMismatch

  /** A record of the rule and the position it was found at. */
  datatype Finding = Finding(rule: Rule, at: int)

  /** The list after a check: one finding longer if it failed. */
  function Add(acc: seq<Finding>, bad: bool, rule: Rule, at: int): (r: seq<Finding>)
    ensures |r| == |acc| + if bad then 1 else 0
  {
    if bad then acc + [Finding(rule, at)] else acc
  }

  class ValidationResult {
    const strict: bool
    var warnings: seq<Finding>
    var errors: seq<Finding>

    constructor (strict: bool)
      ensures this.strict == strict && warnings == [] && errors == []
    {
      this.strict := strict;
      warnings, errors := [], [];
    }

    /** In strict mode a warning counts as an error too. */
    method Warn(rule: Rule, at: int)
      modifies this
      ensures warnings == old(warnings) + [Finding(rule, at)]
      ensures errors == old(errors) + if strict then [Finding(rule, at)] else []
    {
      warnings := warnings + [Finding(rule, at)];
      if strict {
        errors := errors + [Finding(rule, at)];
      }
    }

    method Error(rule: Rule, at: int)
      modifies `errors
      ensures errors == old(errors) + [Finding(rule, at)]
    {
      errors := errors + [Finding(rule, at)];
    }

    /** The `if bad: res.error(...)` pattern. */
    method ErrorWhen(bad: bool, rule: Rule, at: int)
      modifies `errors
      ensures errors == Add(old(errors), bad, rule, at)
    {
      if bad {
        Error(rule, at);
      }
    }

    method WarnWhen(bad: bool, rule: Rule, at: int)
      modifies this
      ensures warnings == Add(old(warnings), bad, rule, at)
      ensures errors == Add(old(errors), bad && strict, rule, at)
    {
      if bad {
        Warn(rule, at);
      }
    }
  }

  // ----------------------------------------------------------------- header

  function HeaderErrors(acc: seq<Finding>, h: ReportHeader, strict: bool): seq<Finding> {
    var e1 := Add(acc, h.version != 1, UnsupportedVersion, 0);
    var e2 := Add(e1, h.tileCount <= 0, InvalidTileCount, 0);
    var e3 := Add(e2, h.routeCount < 0, InvalidRouteCount, 0);
    var e4 := Add(e3, h.packetEstimate < 0, InvalidPacketEstimate, 0);
    var e5 := Add(e4, h.payloadEstimate < 0, InvalidPayloadEstimate, 0);
    var e6 := Add(e5, h.status.OtherReport?, InvalidStatus, 0);
    Add(e6, strict && !h.status.Pass?, StrictStatusNotPass, 0)
  }

  /** The tile count later phases use: zero when the header's is unusable. */
  function DeclaredTiles(h: ReportHeader): nat {
    if h.tileCount <= 0 then 0 else h.tileCount
  }

  method ValidateHeader(h: ReportHeader, res: ValidationResult) returns (tileCount: nat)
    modifies res`errors
    ensures res.errors == HeaderErrors(old(res.errors), h, res.strict)
    ensures tileCount == DeclaredTiles(h)
  {
    hide Add;
    res.ErrorWhen(h.version != 1, UnsupportedVersion, 0);
    res.ErrorWhen(h.tileCount <= 0, InvalidTileCount, 0);
    tileCount := if h.tileCount <= 0 then 0 else h.tileCount;
    res.ErrorWhen(h.routeCount < 0, InvalidRouteCount, 0);
    res.ErrorWhen(h.packetEstimate < 0, InvalidPacketEstimate, 0);
    res.ErrorWhen(h.payloadEstimate < 0, InvalidPayloadEstimate, 0);
    res.ErrorWhen(h.status.OtherReport?, InvalidStatus, 0);
    res.ErrorWhen(res.strict && !h.status.Pass?, StrictStatusNotPass, 0);
  }

  // ----------------------------------------------------------------- routes

  /** With an unusable tile count every tile number passes. */
  predicate BadTile(t: int, tileCount: nat) {
    tileCount > 0 && !(0 <= t < tileCount)
  }

  function IdentityErrors(acc: seq<Finding>, at: int, r: Route, tileCount: nat, seen: bool): seq<Finding> {
    var e1 := Add(acc, seen, DuplicateRouteId, at);
    var e2 := Add(e1, r.routeType.OtherRoute?, UnsupportedPacketType, at);
    Add(e2, BadTile(r.sourceTile, tileCount), InvalidTileTarget, at)
  }

  function RangeErrors(acc: seq<Finding>, at: int, tiles: seq<int>, tileCount: nat, n: nat): seq<Finding>
    requires n <= |tiles|
  {
    if n == 0 then acc
    else Add(RangeErrors(acc, at, tiles, tileCount, n - 1), BadTile(tiles[n - 1], tileCount), InvalidTileTarget, at)
  }

  function SelfErrors(acc: seq<Finding>, at: int, tiles: seq<int>, source: int, n: nat): seq<Finding>
    requires n <= |tiles|
  {
    if n == 0 then acc else Add(SelfErrors(acc, at, tiles, source, n - 1), tiles[n - 1] == source, SelfRoute, at)
  }

  function DestinationErrors(acc: seq<Finding>, at: int, r: Route, tileCount: nat): seq<Finding> {
    var tiles := r.destinationTiles;
    if tiles == [] then Add(acc, !r.routeType.TraceEvent? && !r.routeType.ControlAck?, EmptyDestination, at)
    else
      var e1 := RangeErrors(acc, at, tiles, tileCount, |tiles|);
      if r.routeType.MayTargetSource() then e1 else SelfErrors(e1, at, tiles, r.sourceTile, |tiles|)
  }

  predicate DestinationsOk(r: Route, tileCount: nat) {
    var tiles := r.destinationTiles;
    if tiles == [] then r.routeType.TraceEvent? || r.routeType.ControlAck?
    else
      && (forall i :: 0 <= i < |tiles| ==> !BadTile(tiles[i], tileCount))
      && (r.routeType.MayTargetSource() || forall i :: 0 <= i < |tiles| ==> tiles[i] != r.sourceTile)
  }

  function PayloadErrors(acc: seq<Finding>, at: int, r: Route): seq<Finding> {
    var e1 := if r.payloadBytes < 0 then Add(acc, true, InvalidPayloadBytes, at)
             else Add(acc, r.routeType.CarriesData() && r.payloadBytes == 0, ZeroPayload, at);
    if r.packetCount < 0 then Add(e1, true, InvalidRoutePacketCount, at)
    else Add(e1, r.routeType.CarriesData() && r.packetCount == 0, ZeroPacketCount, at)
  }

  predicate PayloadOk(r: Route) {
    r.payloadBytes >= 0 && r.packetCount >= 0 && (r.routeType.CarriesData() ==> r.payloadBytes > 0 && r.packetCount > 0)
  }

  function ReductionErrors(acc: seq<Finding>, at: int, r: Route): seq<Finding> {
    var e1 := if r.behavior.OtherBehavior? then Add(acc, true, UnknownReductionBehavior, at)
             else Add(acc, r.routeType.Reduces() && !r.behavior.Explicit(), ReductionNotExplicit, at);
    Add(e1, r.routeType.Reduces() && r.reductionId < 0, InvalidReductionId, at)
  }

  function OrderErrors(acc: seq<Finding>, at: int, r: Route): seq<Finding> {
    var e1 := if r.ordering.OtherOrdering? then Add(acc, true, UnknownOrderingPolicy, at)
             else Add(acc, r.routeType.BarrierRoute? && !r.ordering.Barriered?, BarrierOrdering, at);
    Add(e1, r.status.OtherStatus?, UnknownRouteStatus, at)
  }

  predicate ReductionAndOrderOk(r: Route) {
    && !r.behavior.OtherBehavior? && (r.routeType.Reduces() ==> r.behavior.Explicit() && r.reductionId >= 0)
    && !r.ordering.OtherOrdering? && (r.routeType.BarrierRoute? ==> r.ordering.Barriered?)
    && !r.status.OtherStatus?
  }

  function RouteErrors(acc: seq<Finding>, at: int, r: Route, tileCount: nat, seen: bool): seq<Finding> {
    var e1 := DestinationErrors(IdentityErrors(acc, at, r, tileCount, seen), at, r, tileCount);
    OrderErrors(ReductionErrors(PayloadErrors(e1, at, r), at, r), at, r)
  }

  /** The route_ok flag at the end of the checks. */
  predicate RouteOk(r: Route, tileCount: nat, seen: bool) {
    && !seen && !r.routeType.OtherRoute? && !BadTile(r.sourceTile, tileCount)
    && DestinationsOk(r, tileCount) && PayloadOk(r) && ReductionAndOrderOk(r)
  }

  predicate SeenBefore(rs: seq<Route>, i: nat)
    requires i < |rs|
  {
    exists j :: 0 <= j < i && rs[j].routeId == rs[i].routeId
  }

  function AllRouteErrors(acc: seq<Finding>, rs: seq<Route>, tileCount: nat, n: nat): seq<Finding>
    requires n <= |rs|
  {
    if n == 0 then acc
    else RouteErrors(AllRouteErrors(acc, rs, tileCount, n - 1), n - 1, rs[n - 1], tileCount, SeenBefore(rs, n - 1))
  }

  function ValidRoutes(rs: seq<Route>, tileCount: nat, n: nat): seq<Route>
    requires n <= |rs|
  {
    if n == 0 then []
    else ValidRoutes(rs, tileCount, n - 1) + if RouteOk(rs[n - 1], tileCount, SeenBefore(rs, n - 1)) then [rs[n - 1]] else []
  }

  method CheckDestinations(at: int, r: Route, tileCount: nat, res: ValidationResult) returns (ok: bool)
    modifies res`errors
    ensures res.errors == DestinationErrors(old(res.errors), at, r, tileCount)
    ensures ok <==> DestinationsOk(r, tileCount)
  {
    var tiles := r.destinationTiles;
    if tiles == [] {
      res.ErrorWhen(!r.routeType.TraceEvent? && !r.routeType.ControlAck?, EmptyDestination, at);
      return r.routeType.TraceEvent? || r.routeType.ControlAck?;
    }
    ok := true;
    for i := 0 to |tiles|
      invariant res.errors == RangeErrors(old(res.errors), at, tiles, tileCount, i)
      invariant ok <==> forall k :: 0 <= k < i ==> !BadTile(tiles[k], tileCount)
    {
      res.ErrorWhen(BadTile(tiles[i], tileCount), InvalidTileTarget, at);
      ok := ok && !BadTile(tiles[i], tileCount);
    }
    if !r.routeType.MayTargetSource() {
      ghost var before, inRange := res.errors, ok;
      for i := 0 to |tiles|
        invariant res.errors == SelfErrors(before, at, tiles, r.sourceTile, i)
        invariant ok <==> inRange && forall k :: 0 <= k < i ==> tiles[k] != r.sourceTile
      {
        res.ErrorWhen(tiles[i] == r.sourceTile, SelfRoute, at);
        ok := ok && tiles[i] != r.sourceTile;
      }
    }
  }

  method CheckPayload(at: int, r: Route, res: ValidationResult) returns (ok: bool)
    modifies res`errors
    ensures res.errors == PayloadErrors(old(res.errors), at, r)
    ensures ok <==> PayloadOk(r)
  {
    ok := true;
    if r.payloadBytes < 0 {
      res.Error(InvalidPayloadBytes, at);
      ok := false;
    } else if r.routeType.CarriesData() && r.payloadBytes == 0 {
      res.Error(ZeroPayload, at);
      ok := false;
    }
    if r.packetCount < 0 {
      res.Error(InvalidRoutePacketCount, at);
      ok := false;
    } else if r.routeType.CarriesData() && r.packetCount == 0 {
      res.Error(ZeroPacketCount, at);
      ok := false;
    }
  }

  method CheckReductionAndOrder(at: int, r: Route, res: ValidationResult) returns (ok: bool)
    modifies res`errors
    ensures res.errors == OrderErrors(ReductionErrors(old(res.errors), at, r), at, r)
    ensures ok <==> ReductionAndOrderOk(r)
  {
    hide Add;
    var bad := r.behavior.OtherBehavior?;
    if bad {
      res.ErrorWhen(true, UnknownReductionBehavior, at);
    } else {
      bad := r.routeType.Reduces() && !r.behavior.Explicit();
      res.ErrorWhen(bad, ReductionNotExplicit, at);
    }
    ok := !bad && !(r.routeType.Reduces() && r.reductionId < 0);
    res.ErrorWhen(r.routeType.Reduces() && r.reductionId < 0, InvalidReductionId, at);
    bad := r.ordering.OtherOrdering?;
    if bad {
      res.ErrorWhen(true, UnknownOrderingPolicy, at);
    } else {
      bad := r.routeType.BarrierRoute? && !r.ordering.Barriered?;
      res.ErrorWhen(bad, BarrierOrdering, at);
    }
    ok := ok && !bad && !r.status.OtherStatus?;
    res.ErrorWhen(r.status.OtherStatus?, UnknownRouteStatus, at);
  }

  method CheckRoute(at: int, r: Route, tileCount: nat, seen: bool, res: ValidationResult) returns (ok: bool)
    modifies res`errors
    ensures res.errors == RouteErrors(old(res.errors), at, r, tileCount, seen)
    ensures ok <==> RouteOk(r, tileCount, seen)
  {
    hide Add;
    hide BadTile;
    hide DestinationErrors;
    hide PayloadErrors;
    hide ReductionErrors;
    hide OrderErrors;
    hide DestinationsOk;
    hide PayloadOk;
    hide ReductionAndOrderOk;
    res.ErrorWhen(seen, DuplicateRouteId, at);
    res.ErrorWhen(r.routeType.OtherRoute?, UnsupportedPacketType, at);
    res.ErrorWhen(BadTile(r.sourceTile, tileCount), InvalidTileTarget, at);
    var destinationsOk := CheckDestinations(at, r, tileCount, res);
    var payloadOk := CheckPayload(at, r, res);
    var restOk := CheckReductionAndOrder(at, r, res);
    ok := !seen && !r.routeType.OtherRoute? && !BadTile(r.sourceTile, tileCount) && destinationsOk && payloadOk && restOk;
  }

  /** `validate_routes`. */
  method ValidateRoutes(rs: seq<Route>, tileCount: nat, res: ValidationResult) returns (valid: seq<Route>)
    modifies res`errors
    ensures res.errors == AllRouteErrors(old(res.errors), rs, tileCount, |rs|)
    ensures valid == ValidRoutes(rs, tileCount, |rs|)
  {
    hide RouteErrors;
    hide RouteOk;
    valid := [];
    var seenIds: set<int> := {};
    for i := 0 to |rs|
      invariant forall id :: id in seenIds <==> exists j :: 0 <= j < i && rs[j].routeId == id
      invariant res.errors == AllRouteErrors(old(res.errors), rs, tileCount, i)
      invariant valid == ValidRoutes(rs, tileCount, i)
    {
      var seen := rs[i].routeId in seenIds;
      assert seen == SeenBefore(rs, i);
      seenIds := seenIds + {rs[i].routeId};
      var ok := CheckRoute(i, rs[i], tileCount, seen, res);
      if ok {
        valid := valid + [rs[i]];
      }
    }
  }

  // ------------------------------------------------------------------ tiles

  /** The nine counters of a tile record in the order they are checked. */
  function CheckedFields(t: TileSummary): (f: seq<int>) {
    [t.outPackets, t.inPackets, t.outBytes, t.inBytes, t.reductionsStarted, t.reductionsCompleted,
     t.barriersStarted, t.barriersCompleted, t.routeFailures]
  }

  function FieldErrors(acc: seq<Finding>, at: int, fields: seq<int>, n: nat): seq<Finding>
    requires n <= |fields|
  {
    if n == 0 then acc else Add(FieldErrors(acc, at, fields, n - 1), fields[n - 1] < 0, InvalidTileField, at)
  }

  function TileErrors(acc: seq<Finding>, at: int, t: TileSummary, tileCount: nat, seen: bool): seq<Finding> {
    var e1 := if BadTile(t.tileId, tileCount) then Add(acc, true, InvalidTileId, at) else Add(acc, seen, DuplicateTileId, at);
    var e2 := FieldErrors(e1, at, CheckedFields(t), |CheckedFields(t)|);
    Add(e2, t.bandwidth.Some? && t.bandwidth.value < 0.0, InvalidBandwidth, at)
  }

  predicate FieldsOk(fields: seq<int>) {
    forall i :: 0 <= i < |fields| ==> fields[i] >= 0
  }

  predicate TileOk(t: TileSummary, tileCount: nat, seen: bool) {
    !BadTile(t.tileId, tileCount) && !seen && FieldsOk(CheckedFields(t)) && (t.bandwidth.Some? ==> t.bandwidth.value >= 0.0)
  }

  /** Only tiles that are in range enter the seen set. */
  predicate TileSeenBefore(ts: seq<TileSummary>, tileCount: nat, i: nat)
    requires i < |ts|
  {
    exists j :: 0 <= j < i && ts[j].tileId == ts[i].tileId && !BadTile(ts[j].tileId, tileCount)
  }

  function AllTileErrors(acc: seq<Finding>, ts: seq<TileSummary>, tileCount: nat, n: nat): seq<Finding>
    requires n <= |ts|
  {
    if n == 0 then acc
    else TileErrors(AllTileErrors(acc, ts, tileCount, n - 1), n - 1, ts[n - 1], tileCount, TileSeenBefore(ts, tileCount, n - 1))
  }

  function ValidTiles(ts: seq<TileSummary>, tileCount: nat, n: nat): seq<TileSummary>
    requires n <= |ts|
  {
    if n == 0 then []
    else ValidTiles(ts, tileCount, n - 1) + if TileOk(ts[n - 1], tileCount, TileSeenBefore(ts, tileCount, n - 1)) then [ts[n - 1]] else []
  }

  method CheckTile(at: int, t: TileSummary, tileCount: nat, seen: bool, res: ValidationResult) returns (ok: bool)
    modifies res`errors
    ensures res.errors == TileErrors(old(res.errors), at, t, tileCount, seen)
    ensures ok <==> TileOk(t, tileCount, seen)
  {
    if BadTile(t.tileId, tileCount) {
      res.ErrorWhen(true, InvalidTileId, at);
    } else {
      res.ErrorWhen(seen, DuplicateTileId, at);
    }
    var fields := CheckedFields(t);
    ghost var before := res.errors;
    hide Add;
    hide BadTile;
    hide CheckedFields;
    ok := true;
    for i := 0 to |fields|
      invariant res.errors == FieldErrors(before, at, fields, i)
      invariant ok <==> forall k :: 0 <= k < i ==> fields[k] >= 0
    {
      res.ErrorWhen(fields[i] < 0, InvalidTileField, at);
      ok := ok && fields[i] >= 0;
    }
    var badBandwidth := t.bandwidth.Some? && t.bandwidth.value < 0.0;
    res.ErrorWhen(badBandwidth, InvalidBandwidth, at);
    ok := ok && !BadTile(t.tileId, tileCount) && !seen && !badBandwidth;
  }

  /** `validate_tiles`. */
  method ValidateTiles(ts: seq<TileSummary>, tileCount: nat, res: ValidationResult) returns (valid: seq<TileSummary>)
    modifies res`errors
    ensures res.errors == AllTileErrors(old(res.errors), ts, tileCount, |ts|)
    ensures valid == ValidTiles(ts, tileCount, |ts|)
  {
    hide TileErrors;
    hide TileOk;
    hide BadTile;
    valid := [];
    var seenIds: set<int> := {};
    for i := 0 to |ts|
      invariant forall id :: id in seenIds <==> exists j :: 0 <= j < i && ts[j].tileId == id && !BadTile(ts[j].tileId, tileCount)
      invariant res.errors == AllTileErrors(old(res.errors), ts, tileCount, i)
      invariant valid == ValidTiles(ts, tileCount, i)
    {
      var seen := ts[i].tileId in seenIds;
      assert seen == TileSeenBefore(ts, tileCount, i);
      if !BadTile(ts[i].tileId, tileCount) {
        seenIds := seenIds + {ts[i].tileId};
      }
      var ok := CheckTile(i, ts[i], tileCount, seen, res);
      if ok {
        valid := valid + [ts[i]];
      }
    }
  }

  // ------------------------------------------------------------ consistency

  /** The validator's own recomputation of a tile's packets; negative tile numbers are not recorded. */
  function ExpectedOut(rs: seq<Route>, tile: int): int {
    if tile >= 0 then Sent(rs, tile, PacketsOf) else 0
  }

  function ExpectedIn(rs: seq<Route>, tile: int): int {
    if tile >= 0 then Received(rs, tile, PacketsOf) else 0
  }

  function ConsistencyFindings(acc: seq<Finding>, rs: seq<Route>, ts: seq<TileSummary>, n: nat): seq<Finding>
    requires n <= |ts|
  {
    if n == 0 then acc
    else
      var t := ts[n - 1];
      var e1 := Add(ConsistencyFindings(acc, rs, ts, n - 1), t.outPackets != ExpectedOut(rs, t.tileId), TileOutboundMismatch, t.tileId);
      Add(e1, t.inPackets != ExpectedIn(rs, t.tileId), TileInboundMismatch, t.tileId)
  }

  ghost predicate Recomputed(outbound: map<int, int>, inbound: map<int, int>, rs: seq<Route>) {
    && (forall t: int :: Get(outbound, t) == ExpectedOut(rs, t))
    && (forall t: int :: Get(inbound, t) == ExpectedIn(rs, t))
  }

  /** The accumulation loop over the valid routes. */
  method Recompute(rs: seq<Route>) returns (outbound: map<int, int>, inbound: map<int, int>)
    ensures Recomputed(outbound, inbound, rs)
  {
    outbound, inbound := map[], map[];
    assert rs[..0] == [] && Recomputed(outbound, inbound, []);
    hide Recomputed;
    for i := 0 to |rs|
      invariant Recomputed(outbound, inbound, rs[..i])
    {
      assert rs[..i + 1] == rs[..i] + [rs[i]];
      outbound, inbound := Accumulate(rs[..i], rs[i], outbound, inbound);
    }
    assert rs[..|rs|] == rs;
  }

  method Accumulate(ghost before: seq<Route>, r: Route, outbound: map<int, int>, inbound: map<int, int>)
    returns (outbound': map<int, int>, inbound': map<int, int>)
    requires Recomputed(outbound, inbound, before)
    ensures Recomputed(outbound', inbound', before + [r])
  {
    outbound' := if r.sourceTile >= 0 then Bump(outbound, r.sourceTile, r.packetCount) else outbound;
    inbound' := DeliverNonNegative(inbound, r.destinationTiles, r.packetCount);
    hide Hits;
    hide Sent;
    hide Received;
    forall t: int
      ensures ExpectedOut(before + [r], t) == Get(outbound', t) && ExpectedIn(before + [r], t) == Get(inbound', t)
    {
      TrafficSnoc(before, r, t, PacketsOf);
      assert ExpectedOut(before, t) == Get(outbound, t) && ExpectedIn(before, t) == Get(inbound, t);
    }
  }

  method DeliverNonNegative(m: map<int, int>, tiles: seq<int>, x: int) returns (m': map<int, int>)
    ensures forall t: int :: Get(m', t) == Get(m, t) + if t >= 0 then Hits(tiles, t, x) else 0
  {
    m' := m;
    for i := 0 to |tiles|
      invariant forall t: int :: Get(m', t) == Get(m, t) + if t >= 0 then Hits(tiles[..i], t, x) else 0
    {
      assert tiles[..i + 1][..i] == tiles[..i];
      if tiles[i] >= 0 {
        m' := Bump(m', tiles[i], x);
      }
    }
    assert tiles[..|tiles|] == tiles;
  }

  function CountErrors(acc: seq<Finding>, rep: Report): seq<Finding> {
    Add(acc, rep.header.routeCount != |rep.routes|, RouteCountMismatch, 0)
  }

  /** `validate_consistency`. */
  method ValidateConsistency(rep: Report, rs: seq<Route>, ts: seq<TileSummary>, res: ValidationResult)
    modifies res
    ensures res.warnings == ConsistencyFindings(old(res.warnings), rs, ts, |ts|)
    ensures res.errors == if res.strict then ConsistencyFindings(CountErrors(old(res.errors), rep), rs, ts, |ts|)
                          else CountErrors(old(res.errors), rep)
  {
    res.ErrorWhen(rep.header.routeCount != |rep.routes|, RouteCountMismatch, 0);
    var outbound, inbound := Recompute(rs);
    hide CountErrors;
    hide Add;
    hide ExpectedOut;
    hide ExpectedIn;
    ghost var before := res.errors;
    for i := 0 to |ts|
      invariant res.warnings == ConsistencyFindings(old(res.warnings), rs, ts, i)
      invariant res.errors == if res.strict then ConsistencyFindings(before, rs, ts, i) else before
    {
      var t := ts[i];
      var expectedOut, expectedIn := Get(outbound, t.tileId), Get(inbound, t.tileId);
      assert expectedOut == ExpectedOut(rs, t.tileId) && expectedIn == ExpectedIn(rs, t.tileId);
      WarnTile(t, expectedOut, expectedIn, res);
    }
  }

  method WarnTile(t: TileSummary, expectedOut: int, expectedIn: int, res: ValidationResult)
    modifies res
    ensures res.warnings == Add(Add(old(res.warnings), t.outPackets != expectedOut, TileOutboundMismatch, t.tileId),
                                t.inPackets != expectedIn, TileInboundMismatch, t.tileId)
    ensures res.errors == if res.strict
                          then Add(Add(old(res.errors), t.outPackets != expectedOut, TileOutboundMismatch, t.tileId),
                                   t.inPackets != expectedIn, TileInboundMismatch, t.tileId)
                          else old(res.errors)
  {
    res.WarnWhen(t.outPackets != expectedOut, TileOutboundMismatch, t.tileId);
    res.WarnWhen(t.inPackets != expectedIn, TileInboundMismatch, t.tileId);
  }

  // ------------------------------------------------------------- all phases

  function Warnings(rep: Report): seq<Finding> {
    var t := DeclaredTiles(rep.header);
    var tiles := ValidTiles(rep.tiles, t, |rep.tiles|);
    ConsistencyFindings([], ValidRoutes(rep.routes, t, |rep.routes|), tiles, |tiles|)
  }

  function Errors(rep: Report, strict: bool): seq<Finding> {
    var t := DeclaredTiles(rep.header);
    var tiles := ValidTiles(rep.tiles, t, |rep.tiles|);
    var e1 := AllRouteErrors(HeaderErrors([], rep.header, strict), rep.routes, t, |rep.routes|);
    var e2 := CountErrors(AllTileErrors(e1, rep.tiles, t, |rep.tiles|), rep);
    if strict then ConsistencyFindings(e2, ValidRoutes(rep.routes, t, |rep.routes|), tiles, |tiles|) else e2
  }

  /** The four phases of the validator's main. */
  method ValidateReport(rep: Report, strict: bool) returns (res: ValidationResult)
    ensures fresh(res) && res.strict == strict
    ensures res.warnings == Warnings(rep) && res.errors == Errors(rep, strict)
  {
    res := new ValidationResult(strict);
    hide HeaderErrors;
    hide AllRouteErrors;
    hide AllTileErrors;
    hide ConsistencyFindings;
    hide CountErrors;
    hide ValidRoutes;
    hide ValidTiles;
    var t := ValidateHeader(rep.header, res);
    var routes := ValidateRoutes(rep.routes, t, res);
    var tiles := ValidateTiles(rep.tiles, t, res);
    ValidateConsistency(rep, routes, tiles, res);
  }
}
