module RouteTheorems {
  // What the route mapper writes, the validator accepts: the builder's running counters are the sums the
  // validator recomputes, and the one way to be refused is a negative size.

  import opened Common
  import opened Tally
  import opened CommandPlan
  import opened Routes
  import opened RouteBuilding
  import opened RouteValidation

  /** The shape of every route the mapper emits on tileCount tiles. */
  ghost predicate MapperRoute(r: Route, tileCount: nat) {
    && 0 <= r.sourceTile < tileCount && r.status.Healthy?
    && r.packetCount == (if r.payloadBytes > 0 then 1 else 0)
    && match r.routeType
       case BarrierRoute => r.destinationTiles == AllTiles(tileCount) && r.payloadBytes == 0 && r.ordering.Barriered? && r.behavior.NoReduction?
       case ControlAck => ToOthers(r, tileCount) && r.payloadBytes > 0 && r.behavior.NoReduction?
       case TraceEvent => ToOthers(r, tileCount) && r.payloadBytes > 0 && r.behavior.NoReduction?
       case ActivationSend => ToOthers(r, tileCount) && r.payloadBytes != 0 && r.behavior.NoReduction?
       case PartialReduce => ToOthers(r, tileCount) && r.payloadBytes != 0 && r.behavior.Explicit() && r.reductionId >= 1
       case _ => false
  }

  ghost predicate ToOthers(r: Route, tileCount: nat) {
    r.destinationTiles == OtherTiles(tileCount, r.sourceTile) && r.destinationTiles != [] && r.ordering.InOrder?
  }

  /** A send or reduce with a negative size that has somewhere to go. */
  predicate EmitsNegative(tileCount: nat, c: Command) {
    tileCount >= 2 && (c.commandType.FabricSend? || c.commandType.FabricReduce?) && c.totalBytes < 0
  }

  lemma {:induction false} OthersExist(tileCount: nat, tile: int)
    requires 0 <= tile < tileCount
    ensures OtherTiles(tileCount, tile) == [] <==> tileCount == 1
  {
    var s := OtherTiles(tileCount, tile);
    if s == [] {
      assert 0 in s || tile == 0;
      assert 1 in s || tileCount == 1 || tile == 1;
    } else {
      assert s[0] in s;
    }
  }

  lemma {:induction false} EmittedShape(tileCount: nat, bytes: TensorBytes, c: Command, reductions: nat, id: int)
    requires 0 <= c.tileId < tileCount
    ensures var route := Emission(tileCount, bytes, c, reductions).0;
            && (route.Some? ==> MapperRoute(Completed(route.value, id), tileCount) && Completed(route.value, id).routeId == id)
            && (EmitsNegative(tileCount, c) <==> route.Some? && route.value.payloadBytes < 0)
  {
    OthersExist(tileCount, c.tileId);
    hide OtherTiles;
    hide AllTiles;
    hide KnownPayload;
    hide BehaviorFor;
    hide PayloadWarning;
  }

  ghost predicate OnTiles(cmds: seq<Command>, tileCount: nat) {
    forall i :: 0 <= i < |cmds| ==> 0 <= cmds[i].tileId < tileCount
  }

  ghost predicate MapperRoutes(rs: seq<Route>, tileCount: nat) {
    forall i :: 0 <= i < |rs| ==> MapperRoute(rs[i], tileCount) && rs[i].routeId == i + 1
  }

  ghost predicate NonNegative(rs: seq<Route>) {
    forall i :: 0 <= i < |rs| ==> rs[i].payloadBytes >= 0
  }

  ghost predicate NoneNegative(tileCount: nat, cmds: seq<Command>, n: nat)
    requires n <= |cmds|
  {
    forall i :: 0 <= i < n ==> !EmitsNegative(tileCount, cmds[i])
  }

  lemma {:induction false} MappedShape(tileCount: nat, bytes: TensorBytes, cmds: seq<Command>, n: nat)
    requires n <= |cmds| && OnTiles(cmds, tileCount)
    ensures MapperRoutes(MapCommands(tileCount, bytes, cmds, n).routes, tileCount)
    ensures NonNegative(MapCommands(tileCount, bytes, cmds, n).routes) <==> NoneNegative(tileCount, cmds, n)
  {
    hide Emission;
    hide MapperRoute;
    hide EmitsNegative;
    hide Completed;
    if n > 0 {
      MappedShape(tileCount, bytes, cmds, n - 1);
      var m := MapCommands(tileCount, bytes, cmds, n - 1);
      var c := cmds[n - 1];
      EmittedShape(tileCount, bytes, c, m.reductions, |m.routes| + 1);
      var route := Emission(tileCount, bytes, c, m.reductions).0;
      if route.Some? {
        NonNegativeSnoc(m.routes, Completed(route.value, |m.routes| + 1));
        CompletedPayload(route.value, |m.routes| + 1);
      }
    }
  }

  lemma {:induction false} CompletedPayload(r: Route, id: int)
    ensures Completed(r, id).payloadBytes == r.payloadBytes
  {
  }

  lemma {:induction false} NonNegativeSnoc(rs: seq<Route>, r: Route)
    ensures NonNegative(rs + [r]) <==> NonNegative(rs) && r.payloadBytes >= 0
  {
    if NonNegative(rs + [r]) {
      forall i | 0 <= i < |rs|
        ensures rs[i].payloadBytes >= 0
      {
        assert (rs + [r])[i] == rs[i];
      }
      assert (rs + [r])[|rs|] == r;
    }
  }

  // ------------------------------------------------- one route, one tile

  /** The route checks add nothing exactly when route_ok stays true. */
  lemma {:induction false} RouteErrorsIff(acc: seq<Finding>, at: int, r: Route, tileCount: nat, seen: bool)
    ensures RouteOk(r, tileCount, seen) ==> RouteErrors(acc, at, r, tileCount, seen) == acc
    ensures !RouteOk(r, tileCount, seen) ==> |RouteErrors(acc, at, r, tileCount, seen)| > |acc|
  {
    var e := IdentityErrors(acc, at, r, tileCount, seen);
    DestinationErrorsIff(e, at, r, tileCount);
    hide DestinationErrors;
    hide DestinationsOk;
    hide BadTile;
  }

  lemma {:induction false} DestinationErrorsIff(acc: seq<Finding>, at: int, r: Route, tileCount: nat)
    ensures |DestinationErrors(acc, at, r, tileCount)| >= |acc|
    ensures DestinationsOk(r, tileCount) ==> DestinationErrors(acc, at, r, tileCount) == acc
    ensures !DestinationsOk(r, tileCount) ==> |DestinationErrors(acc, at, r, tileCount)| > |acc|
  {
    var tiles := r.destinationTiles;
    RangeErrorsIff(acc, at, tiles, tileCount, |tiles|);
    SelfErrorsIff(RangeErrors(acc, at, tiles, tileCount, |tiles|), at, tiles, r.sourceTile, |tiles|);
    hide RangeErrors;
    hide SelfErrors;
    hide BadTile;
  }

  lemma {:induction false} RangeErrorsIff(acc: seq<Finding>, at: int, tiles: seq<int>, tileCount: nat, n: nat)
    requires n <= |tiles|
    ensures |RangeErrors(acc, at, tiles, tileCount, n)| >= |acc|
    ensures (forall i :: 0 <= i < n ==> !BadTile(tiles[i], tileCount)) ==> RangeErrors(acc, at, tiles, tileCount, n) == acc
    ensures (exists i :: 0 <= i < n && BadTile(tiles[i], tileCount)) ==> |RangeErrors(acc, at, tiles, tileCount, n)| > |acc|
  {
    hide BadTile;
    if n > 0 {
      RangeErrorsIff(acc, at, tiles, tileCount, n - 1);
    }
  }

  lemma {:induction false} SelfErrorsIff(acc: seq<Finding>, at: int, tiles: seq<int>, source: int, n: nat)
    requires n <= |tiles|
    ensures |SelfErrors(acc, at, tiles, source, n)| >= |acc|
    ensures (forall i :: 0 <= i < n ==> tiles[i] != source) ==> SelfErrors(acc, at, tiles, source, n) == acc
    ensures (exists i :: 0 <= i < n && tiles[i] == source) ==> |SelfErrors(acc, at, tiles, source, n)| > |acc|
  {
    if n > 0 {
      SelfErrorsIff(acc, at, tiles, source, n - 1);
    }
  }

  lemma {:induction false} MapperRouteOk(r: Route, tileCount: nat)
    requires MapperRoute(r, tileCount)
    ensures RouteOk(r, tileCount, false) <==> r.payloadBytes >= 0
    ensures r.payloadBytes < 0 ==> r.packetCount == 0
  {
    var tiles := r.destinationTiles;
    if r.routeType.BarrierRoute? {
      assert forall t :: t in AllTiles(tileCount) <==> 0 <= t < tileCount;
      assert 0 in tiles;
    } else {
      assert forall t :: t in OtherTiles(tileCount, r.sourceTile) <==> 0 <= t < tileCount && t != r.sourceTile;
    }
    forall i | 0 <= i < |tiles|
      ensures !BadTile(tiles[i], tileCount)
      ensures !r.routeType.BarrierRoute? ==> tiles[i] != r.sourceTile
    {
      assert tiles[i] in tiles;
    }
    hide AllTiles;
    hide OtherTiles;
    hide BadTile;
  }

  // ------------------------------------------------------------- all routes

  lemma {:induction false} AllRoutesIff(acc: seq<Finding>, rs: seq<Route>, tileCount: nat, n: nat)
    requires n <= |rs| && MapperRoutes(rs, tileCount)
    ensures |AllRouteErrors(acc, rs, tileCount, n)| >= |acc|
    ensures NonNegative(rs[..n]) ==> AllRouteErrors(acc, rs, tileCount, n) == acc
    ensures !NonNegative(rs[..n]) ==> |AllRouteErrors(acc, rs, tileCount, n)| > |acc|
  {
    hide RouteErrors;
    hide RouteOk;
    hide MapperRoute;
    if n > 0 {
      AllRoutesIff(acc, rs, tileCount, n - 1);
      assert rs[..n] == rs[..n - 1] + [rs[n - 1]];
      NonNegativeSnoc(rs[..n - 1], rs[n - 1]);
      NotSeen(rs, tileCount, n - 1);
      MapperRouteOk(rs[n - 1], tileCount);
      RouteErrorsIff(AllRouteErrors(acc, rs, tileCount, n - 1), n - 1, rs[n - 1], tileCount, false);
    }
  }

  lemma {:induction false} NotSeen(rs: seq<Route>, tileCount: nat, i: nat)
    requires MapperRoutes(rs, tileCount) && i < |rs|
    ensures !SeenBefore(rs, i)
  {
    hide MapperRoute;
  }

  /** Routes the validator drops carry no packets, so its recomputed packet counts are unaffected. */
  lemma {:induction false} DroppedCarryNothing(rs: seq<Route>, tileCount: nat, n: nat, tile: int)
    requires n <= |rs| && MapperRoutes(rs, tileCount)
    ensures Sent(ValidRoutes(rs, tileCount, n), tile, PacketsOf) == Sent(rs[..n], tile, PacketsOf)
    ensures Received(ValidRoutes(rs, tileCount, n), tile, PacketsOf) == Received(rs[..n], tile, PacketsOf)
  {
    hide RouteOk;
    hide MapperRoute;
    hide Sent;
    hide Received;
    if n > 0 {
      DroppedCarryNothing(rs, tileCount, n - 1, tile);
      assert rs[..n] == rs[..n - 1] + [rs[n - 1]];
      var r, kept := rs[n - 1], ValidRoutes(rs, tileCount, n - 1);
      TrafficSnoc(rs[..n - 1], r, tile, PacketsOf);
      TrafficSnoc(kept, r, tile, PacketsOf);
      NotSeen(rs, tileCount, n - 1);
      MapperRouteOk(r, tileCount);
      if r.payloadBytes < 0 {
        HitsZero(r.destinationTiles, tile);
        assert kept + [] == kept;
      }
    } else {
      assert rs[..0] == [] && ValidRoutes(rs, tileCount, 0) == [];
    }
  }

  // ------------------------------------------------------------------ tiles

  lemma {:induction false} SummariesIds(rs: seq<Route>, n: nat, i: nat)
    requires i < n
    ensures Summaries(rs, n)[i].tileId == i
  {
    SummariesAt(rs, n, i);
  }

  lemma {:induction false} TotalNonNegative(rs: seq<Route>, f: Route -> int)
    requires forall i :: 0 <= i < |rs| ==> f(rs[i]) >= 0
    ensures Total(rs, f) >= 0
  {
    if |rs| > 0 {
      TotalNonNegative(rs[..|rs| - 1], f);
    }
  }

  lemma {:induction false} TrafficNonNegative(rs: seq<Route>, tile: int, w: Route -> int)
    requires forall i :: 0 <= i < |rs| ==> w(rs[i]) >= 0
    ensures Sent(rs, tile, w) >= 0 && Received(rs, tile, w) >= 0
  {
    forall i | 0 <= i < |rs|
      ensures ReceivedBy(tile, w)(rs[i]) >= 0
    {
      HitsNonNegative(rs[i].destinationTiles, tile, w(rs[i]));
    }
    TotalNonNegative(rs, SentBy(tile, w));
    TotalNonNegative(rs, ReceivedBy(tile, w));
  }

  lemma {:induction false} SummaryOk(rs: seq<Route>, tileCount: nat, t: nat)
    requires MapperRoutes(rs, tileCount) && NonNegative(rs) && t < tileCount
    ensures TileOk(SummaryOf(rs, t), tileCount, false)
  {
    forall i | 0 <= i < |rs|
      ensures PacketsOf(rs[i]) >= 0 && PayloadOf(rs[i]) >= 0
    {
      assert MapperRoute(rs[i], tileCount);
    }
    hide MapperRoute;
    TrafficNonNegative(rs, t, PacketsOf);
    TrafficNonNegative(rs, t, PayloadOf);
    TrafficNonNegative(rs, t, PartialReductionsOf);
    TotalNonNegative(rs, BarriersOf);
    hide Sent;
    hide Received;
    hide Total;
  }

  lemma {:induction false} TileErrorsNone(acc: seq<Finding>, at: int, t: TileSummary, tileCount: nat)
    requires TileOk(t, tileCount, false)
    ensures TileErrors(acc, at, t, tileCount, false) == acc
  {
    FieldErrorsNone(acc, at, CheckedFields(t), |CheckedFields(t)|);
    hide CheckedFields;
    hide FieldErrors;
  }

  lemma {:induction false} FieldErrorsNone(acc: seq<Finding>, at: int, fields: seq<int>, n: nat)
    requires n <= |fields| && FieldsOk(fields)
    ensures FieldErrors(acc, at, fields, n) == acc
  {
    if n > 0 {
      FieldErrorsNone(acc, at, fields, n - 1);
    }
  }

  lemma {:induction false} TileNotSeen(ts: seq<TileSummary>, tileCount: nat, i: nat)
    requires i < |ts| && forall k :: 0 <= k < |ts| ==> ts[k].tileId == k
    ensures !TileSeenBefore(ts, tileCount, i)
  {
  }

  lemma {:induction false} AllTilesOk(acc: seq<Finding>, rs: seq<Route>, tileCount: nat, n: nat)
    requires MapperRoutes(rs, tileCount) && NonNegative(rs) && n <= tileCount
    ensures AllTileErrors(acc, Summaries(rs, tileCount), tileCount, n) == acc
  {
    hide TileErrors;
    hide TileOk;
    hide Summaries;
    hide SummaryOf;
    if n > 0 {
      AllTilesOk(acc, rs, tileCount, n - 1);
      forall k | 0 <= k < tileCount
        ensures Summaries(rs, tileCount)[k].tileId == k
      {
        SummariesIds(rs, tileCount, k);
      }
      TileNotSeen(Summaries(rs, tileCount), tileCount, n - 1);
      SummariesAt(rs, tileCount, n - 1);
      SummaryOk(rs, tileCount, n - 1);
      TileErrorsNone(acc, n - 1, SummaryOf(rs, n - 1), tileCount);
    }
  }

  // ------------------------------------------------------------ consistency

  ghost predicate FromSummaries(rs: seq<Route>, tileCount: nat, ts: seq<TileSummary>) {
    forall i :: 0 <= i < |ts| ==> 0 <= ts[i].tileId < tileCount && ts[i] == SummaryOf(rs, ts[i].tileId)
  }

  lemma {:induction false} ValidTilesAreSummaries(rs: seq<Route>, tileCount: nat, n: nat)
    requires n <= tileCount
    ensures FromSummaries(rs, tileCount, ValidTiles(Summaries(rs, tileCount), tileCount, n))
  {
    hide TileOk;
    hide Summaries;
    if n > 0 {
      ValidTilesAreSummaries(rs, tileCount, n - 1);
      SummariesAt(rs, tileCount, n - 1);
      hide SummaryOf;
      SummariesIds(rs, tileCount, n - 1);
    }
  }

  lemma {:induction false} ConsistentSummaries(acc: seq<Finding>, rs: seq<Route>, tileCount: nat, ts: seq<TileSummary>, n: nat)
    requires n <= |ts| && MapperRoutes(rs, tileCount) && FromSummaries(rs, tileCount, ts)
    ensures ConsistencyFindings(acc, ValidRoutes(rs, tileCount, |rs|), ts, n) == acc
  {
    if n > 0 {
      ConsistentSummaries(acc, rs, tileCount, ts, n - 1);
      var t := ts[n - 1];
      DroppedCarryNothing(rs, tileCount, |rs|, t.tileId);
      assert rs[..|rs|] == rs;
      assert t == SummaryOf(rs, t.tileId);
      hide ValidRoutes;
      hide Sent;
      hide Received;
      hide MapperRoute;
    }
  }

  // ----------------------------------------------------------- main theorem

  /** The header check on an assembled report. */
  lemma {:induction false} AssembledHeader(rs: seq<Route>, tileCount: nat, warned: bool, strict: bool, vStrict: bool)
    requires tileCount > 0 && MapperRoutes(rs, tileCount)
    ensures var h := Assembled(tileCount, rs, warned, strict).header;
            NonNegative(rs) ==> (HeaderErrors([], h, vStrict) == [] <==> !(vStrict && warned))
  {
    if NonNegative(rs) {
      forall i | 0 <= i < |rs|
        ensures PacketsOf(rs[i]) >= 0 && PayloadOf(rs[i]) >= 0
      {
        assert MapperRoute(rs[i], tileCount);
      }
      TotalNonNegative(rs, PacketsOf);
      TotalNonNegative(rs, PayloadOf);
    }
    hide MapperRoute;
    hide Total;
    hide Summaries;
  }

  lemma {:induction false} AssembledErrors(rs: seq<Route>, tileCount: nat, warned: bool, strict: bool, vStrict: bool)
    requires tileCount > 0 && MapperRoutes(rs, tileCount)
    ensures Warnings(Assembled(tileCount, rs, warned, strict)) == []
    ensures Errors(Assembled(tileCount, rs, warned, strict), vStrict) == [] <==> NonNegative(rs) && !(vStrict && warned)
  {
    var rep := Assembled(tileCount, rs, warned, strict);
    assert rs[..|rs|] == rs;
    AssembledHeader(rs, tileCount, warned, strict, vStrict);
    var h := HeaderErrors([], rep.header, vStrict);
    AllRoutesIff(h, rs, tileCount, |rs|);
    var e := AllRouteErrors(h, rs, tileCount, |rs|);
    ValidTilesAreSummaries(rs, tileCount, tileCount);
    var ts := ValidTiles(rep.tiles, tileCount, tileCount);
    ConsistentSummaries([], rs, tileCount, ts, |ts|);
    AllTilesGrow(e, rep.tiles, tileCount, tileCount);
    var f := AllTileErrors(e, rep.tiles, tileCount, tileCount);
    ConsistentSummaries(CountErrors(f, rep), rs, tileCount, ts, |ts|);
    if NonNegative(rs) {
      AllTilesOk(e, rs, tileCount, tileCount);
    }
    hide HeaderErrors;
    hide AllRouteErrors;
    hide AllTileErrors;
    hide ConsistencyFindings;
    hide ValidRoutes;
    hide ValidTiles;
    hide MapperRoutes;
    hide NonNegative;
    hide Total;
    hide Summaries;
  }

  lemma {:induction false} AllTilesGrow(acc: seq<Finding>, ts: seq<TileSummary>, tileCount: nat, n: nat)
    requires n <= |ts|
    ensures |AllTileErrors(acc, ts, tileCount, n)| >= |acc|
  {
    if n > 0 {
      AllTilesGrow(acc, ts, tileCount, n - 1);
      var e := AllTileErrors(acc, ts, tileCount, n - 1);
      TileErrorsGrow(e, n - 1, ts[n - 1], tileCount, TileSeenBefore(ts, tileCount, n - 1));
    }
  }

  lemma {:induction false} TileErrorsGrow(acc: seq<Finding>, at: int, t: TileSummary, tileCount: nat, seen: bool)
    ensures |TileErrors(acc, at, t, tileCount, seen)| >= |acc|
  {
    var e := if BadTile(t.tileId, tileCount) then Add(acc, true, InvalidTileId, at) else Add(acc, seen, DuplicateTileId, at);
    FieldErrorsGrow(e, at, CheckedFields(t), |CheckedFields(t)|);
    hide CheckedFields;
    hide FieldErrors;
  }

  lemma {:induction false} FieldErrorsGrow(acc: seq<Finding>, at: int, fields: seq<int>, n: nat)
    requires n <= |fields|
    ensures |FieldErrors(acc, at, fields, n)| >= |acc|
  {
    if n > 0 {
      FieldErrorsGrow(acc, at, fields, n - 1);
    }
  }

  // ------------------------------------------------------ when the mapper warns

  /** Commands whose packets go to the other tiles. */
  predicate NeedsOthers(t: CommandType) {
    t.ValidateTensor? || t.QueryCounters? || t.TraceSnapshot? || t.FabricSend? || t.FabricReduce?
  }

  /** The mapper has nothing to warn about at command i: its id is new, its type has routes or needs none, there is
      another tile where one is needed, and the size of a send or reduce is known. */
  ghost predicate Quiet(tileCount: int, bytes: TensorBytes, cmds: seq<Command>, i: nat)
    requires i < |cmds|
  {
    var c := cmds[i];
    && (forall j :: 0 <= j < i ==> cmds[j].commandId != c.commandId)
    && !c.commandType.UnknownCommand?
    && (tileCount == 1 ==> !NeedsOthers(c.commandType))
    && (c.commandType.FabricSend? || c.commandType.FabricReduce? ==> KnownPayload(bytes, c) != 0)
  }

  ghost predicate AllQuiet(tileCount: int, bytes: TensorBytes, cmds: seq<Command>, n: nat)
    requires n <= |cmds|
  {
    forall i :: 0 <= i < n ==> Quiet(tileCount, bytes, cmds, i)
  }

  lemma {:induction false} EmissionQuiet(tileCount: nat, bytes: TensorBytes, c: Command, reductions: nat)
    requires 0 <= c.tileId < tileCount
    ensures Emission(tileCount, bytes, c, reductions).1 == []
       <==> && !c.commandType.UnknownCommand?
            && (tileCount == 1 ==> !NeedsOthers(c.commandType))
            && (c.commandType.FabricSend? || c.commandType.FabricReduce? ==> KnownPayload(bytes, c) != 0)
  {
    OthersExist(tileCount, c.tileId);
    hide OtherTiles;
    hide AllTiles;
    hide KnownPayload;
    hide BehaviorFor;
    hide Payload;
  }

  lemma {:induction false} CommandQuiet(tileCount: nat, bytes: TensorBytes, cmds: seq<Command>, i: nat, reductions: nat)
    requires i < |cmds| && 0 <= cmds[i].tileId < tileCount
    ensures MapperWarnings(cmds, i) == [] && Emission(tileCount, bytes, cmds[i], reductions).1 == []
       <==> Quiet(tileCount, bytes, cmds, i)
  {
    EmissionQuiet(tileCount, bytes, cmds[i], reductions);
    hide Emission;
    hide KnownPayload;
    hide NeedsOthers;
  }

  /** The two sources of warnings, the plan check and the mapping loop, are silent together exactly on quiet commands. */
  lemma {:induction false} WarningsIff(tileCount: nat, bytes: TensorBytes, cmds: seq<Command>, n: nat)
    requires n <= |cmds| && MapperCheckCommands(cmds, tileCount, n).Ok?
    ensures MapperCheckCommands(cmds, tileCount, n).value == [] && MapCommands(tileCount, bytes, cmds, n).warnings == []
       <==> AllQuiet(tileCount, bytes, cmds, n)
  {
    hide Emission;
    hide MapperWarnings;
    hide Quiet;
    if n > 0 {
      WarningsIff(tileCount, bytes, cmds, n - 1);
      CommandQuiet(tileCount, bytes, cmds, n - 1, MapCommands(tileCount, bytes, cmds, n - 1).reductions);
    }
  }

  /** A generated report is marked as passed exactly when every command of the plan is quiet; a strict run makes a
      report of a plan exactly when a non-strict one does, the plan's status is "ok" and every command is quiet. */
  lemma {:induction false} ReportPassesIff(p: Plan, bytes: TensorBytes)
    ensures MapPlan(p, bytes, false).Ok? ==>
              (MapPlan(p, bytes, false).value.header.status.Pass? <==> AllQuiet(TilesOf(p), bytes, p.commands, |p.commands|))
    ensures MapPlan(p, bytes, true).Ok?
       <==> MapPlan(p, bytes, false).Ok? && p.header.status == "ok" && AllQuiet(TilesOf(p), bytes, p.commands, |p.commands|)
    ensures MapPlan(p, bytes, true).Ok? ==> MapPlan(p, bytes, true).value.header.status.Pass?
  {
    hide MapperCheckCommands;
    hide MapCommands;
    hide AllQuiet;
    hide Total;
    hide Summaries;
    if MapPlan(p, bytes, false).Ok? {
      WarningsIff(TilesOf(p), bytes, p.commands, |p.commands|);
    }
  }

  /** For every plan and every mode, a generated report draws no warning from the validator, and draws no error exactly
      when no emitted send or reduce has a negative size and, for a strict validator, every command is one the mapper
      had nothing to warn about. */
  lemma {:induction false} MapperReportValidates(p: Plan, bytes: TensorBytes, strict: bool, vStrict: bool, rep: Report)
    requires MapPlan(p, bytes, strict) == Ok(rep)
    ensures Warnings(rep) == []
    ensures Errors(rep, vStrict) == []
       <==> && NoneNegative(TilesOf(p), p.commands, |p.commands|)
            && (vStrict ==> AllQuiet(TilesOf(p), bytes, p.commands, |p.commands|))
  {
    hide *;
    ValidatesIff(p, bytes, strict, vStrict, rep);
    StrictReport(p, bytes, strict, rep);
  }

  lemma {:induction false} StrictReport(p: Plan, bytes: TensorBytes, strict: bool, rep: Report)
    requires MapPlan(p, bytes, strict) == Ok(rep)
    ensures rep.header.status.Pass? <==> AllQuiet(TilesOf(p), bytes, p.commands, |p.commands|)
  {
    ReportPassesIff(p, bytes);
    hide MapPlan;
    hide AllQuiet;
  }

  lemma {:induction false} ValidatesIff(p: Plan, bytes: TensorBytes, strict: bool, vStrict: bool, rep: Report)
    requires MapPlan(p, bytes, strict) == Ok(rep)
    ensures Warnings(rep) == []
    ensures Errors(rep, vStrict) == []
       <==> NoneNegative(TilesOf(p), p.commands, |p.commands|) && (vStrict ==> rep.header.status.Pass?)
  {
    MapperAccepts(p.commands, p.header.tileCount, |p.commands|);
    MappedShape(TilesOf(p), bytes, p.commands, |p.commands|);
    var m := MapCommands(TilesOf(p), bytes, p.commands, |p.commands|);
    hide MapperCheckCommands;
    hide MapCommands;
    hide Summaries;
    hide Total;
    hide NonNegative;
    hide NoneNegative;
    hide MapperRoutes;
    hide Errors;
    hide Warnings;
    var warned := |MapperCheck(p, strict).value| + |m.warnings| > 0;
    AssembledErrors(m.routes, TilesOf(p), warned, strict, vStrict);
  }
}
