module GeneratedReports {
  // An actual report of the route mapper, taken as a whole: its tile summaries against the replay counters,
  // its header against the bandwidth model, and the plans on which the two sides part.

  import opened Common
  import opened Tally
  import opened CommandPlan
  import opened Routes
  import opened RouteBuilding
  import opened RouteValidation
  import opened RouteReplay
  import opened RouteTheorems
  import opened ReplayTheorems
  import opened Bandwidth

  // ------------------------------------------------ what a plan asks for

  function BarrierCommands(): Command -> int {
    (c: Command) => if c.commandType.TileBarrier? then 1 else 0
  }

  /** Reductions that have somewhere to go. */
  function Reduces(tileCount: nat): Command -> int {
    (c: Command) => if tileCount >= 2 && c.commandType.FabricReduce? then 1 else 0
  }

  function ReducesOn(tileCount: nat, t: int): Command -> int {
    (c: Command) => if tileCount >= 2 && c.commandType.FabricReduce? && c.tileId == t then 1 else 0
  }

  lemma {:induction false} EmittedKind(tileCount: nat, bytes: TensorBytes, c: Command, reductions: nat, id: int)
    requires 0 <= c.tileId < tileCount
    ensures var route := Emission(tileCount, bytes, c, reductions).0;
            && (route.None? ==> BarrierCommands()(c) == 0 && Reduces(tileCount)(c) == 0)
            && (route.Some? ==>
                  var r := Completed(route.value, id);
                  r.sourceTile == c.tileId && BarriersOf(r) == BarrierCommands()(c) && PartialReductionsOf(r) == Reduces(tileCount)(c))
  {
    OthersExist(tileCount, c.tileId);
    hide OtherTiles;
    hide AllTiles;
    hide KnownPayload;
    hide BehaviorFor;
    hide PayloadWarning;
  }

  ghost predicate KindsCounted(rs: seq<Route>, cmds: seq<Command>, tileCount: nat, t: int) {
    && Total(rs, BarriersOf) == Total(cmds, BarrierCommands())
    && Total(rs, PartialReductionsOf) == Total(cmds, Reduces(tileCount))
    && Sent(rs, t, PartialReductionsOf) == Total(cmds, ReducesOn(tileCount, t))
  }

  lemma {:induction false} KindsSnoc(rs: seq<Route>, r: Route, cmds: seq<Command>, c: Command, tileCount: nat, t: int)
    requires KindsCounted(rs, cmds, tileCount, t) && r.sourceTile == c.tileId
    requires BarriersOf(r) == BarrierCommands()(c) && PartialReductionsOf(r) == Reduces(tileCount)(c)
    ensures KindsCounted(rs + [r], cmds + [c], tileCount, t)
  {
    TotalSnoc(cmds, c, BarrierCommands());
    TotalSnoc(cmds, c, Reduces(tileCount));
    TotalSnoc(cmds, c, ReducesOn(tileCount, t));
    TotalSnoc(rs, r, BarriersOf);
    TotalSnoc(rs, r, PartialReductionsOf);
    TrafficSnoc(rs, r, t, PartialReductionsOf);
    hide Total;
    hide Sent;
  }

  lemma {:induction false} KindsSkip(rs: seq<Route>, cmds: seq<Command>, c: Command, tileCount: nat, t: int)
    requires KindsCounted(rs, cmds, tileCount, t) && BarrierCommands()(c) == 0 && Reduces(tileCount)(c) == 0
    ensures KindsCounted(rs, cmds + [c], tileCount, t)
  {
    TotalSnoc(cmds, c, BarrierCommands());
    TotalSnoc(cmds, c, Reduces(tileCount));
    TotalSnoc(cmds, c, ReducesOn(tileCount, t));
    hide Total;
    hide Sent;
  }

  lemma {:induction false} KindsMean(rs: seq<Route>, cmds: seq<Command>, tileCount: nat, t: int)
    ensures KindsCounted(rs, cmds, tileCount, t) ==>
      && Total(rs, BarriersOf) == Total(cmds, BarrierCommands())
      && Total(rs, PartialReductionsOf) == Total(cmds, Reduces(tileCount))
      && Sent(rs, t, PartialReductionsOf) == Total(cmds, ReducesOn(tileCount, t))
  {
  }

  /** Barrier and reduction routes are counted off by the commands that ask for them. */
  lemma {:induction false} MappedKinds(tileCount: nat, bytes: TensorBytes, cmds: seq<Command>, n: nat, t: int)
    requires n <= |cmds| && OnTiles(cmds, tileCount)
    ensures KindsCounted(MapCommands(tileCount, bytes, cmds, n).routes, cmds[..n], tileCount, t)
  {
    hide Emission;
    hide Completed;
    if n > 0 {
      hide KindsCounted;
      MappedKinds(tileCount, bytes, cmds, n - 1, t);
      var m, c := MapCommands(tileCount, bytes, cmds, n - 1), cmds[n - 1];
      var route := Emission(tileCount, bytes, c, m.reductions).0;
      EmittedKind(tileCount, bytes, c, m.reductions, |m.routes| + 1);
      assert cmds[..n] == cmds[..n - 1] + [c];
      if route.Some? {
        KindsSnoc(m.routes, Completed(route.value, |m.routes| + 1), cmds[..n - 1], c, tileCount, t);
      } else {
        KindsSkip(m.routes, cmds[..n - 1], c, tileCount, t);
      }
    } else {
      assert cmds[..0] == [];
    }
  }

  // ------------------------------------------------ report against replay

  ghost predicate PacketsMatch(tiles: seq<TileSummary>, counters: seq<Counters>)
    requires |tiles| == |counters|
  {
    forall t :: 0 <= t < |tiles| ==> counters[t].packetsSent == tiles[t].outPackets && counters[t].packetsReceived == tiles[t].inPackets
  }

  ghost predicate BytesMatch(tiles: seq<TileSummary>, counters: seq<Counters>)
    requires |tiles| == |counters|
  {
    forall t :: 0 <= t < |tiles| ==>
      && counters[t].bytesSent == tiles[t].outBytes && counters[t].bytesReceived == tiles[t].inBytes
      && counters[t].reductionsStarted == tiles[t].reductionsStarted && counters[t].routeFailures == tiles[t].routeFailures
  }

  ghost predicate BarriersMatch(tiles: seq<TileSummary>, counters: seq<Counters>)
    requires |tiles| == |counters|
  {
    forall t :: 0 <= t < |tiles| ==>
      counters[t].barriersStarted == tiles[t].barriersStarted && counters[t].barriersCompleted == tiles[t].barriersCompleted
  }

  ghost predicate ReductionsMatch(tiles: seq<TileSummary>, counters: seq<Counters>)
    requires |tiles| == |counters|
  {
    forall t :: 0 <= t < |tiles| ==> counters[t].reductionsCompleted == tiles[t].reductionsCompleted
  }

  lemma {:induction false} ReportFacts(p: Plan, bytes: TensorBytes, strict: bool, rep: Report)
    requires MapPlan(p, bytes, strict) == Ok(rep)
    ensures var n := TilesOf(p);
            && n > 0 && OnTiles(p.commands, n)
            && rep.routes == MapCommands(n, bytes, p.commands, |p.commands|).routes && MapperRoutes(rep.routes, n)
            && (NonNegative(rep.routes) <==> NoneNegative(n, p.commands, |p.commands|))
            && |rep.tiles| == n && (forall t :: 0 <= t < n ==> rep.tiles[t] == SummaryOf(rep.routes, t))
            && rep.header.packetEstimate == Total(rep.routes, PacketsOf) && rep.header.payloadEstimate == Total(rep.routes, PayloadOf)
  {
    var n := TilesOf(p);
    MapperAccepts(p.commands, p.header.tileCount, |p.commands|);
    MappedShape(n, bytes, p.commands, |p.commands|);
    hide MapperCheckCommands;
    hide MapCommands;
    hide MapperRoutes;
    hide NonNegative;
    hide NoneNegative;
    hide Total;
    forall t | 0 <= t < n
      ensures rep.tiles[t] == SummaryOf(rep.routes, t)
    {
      SummariesAt(rep.routes, n, t);
    }
    hide Summaries;
    hide SummaryOf;
  }

  /** A report of any accepted plan against its own replay.  Bytes, reductions started and failures agree on
      every tile; packets agree exactly when no size is negative; barriers exactly when there is one tile or
      the plan has no barrier; completed reductions exactly when the plan has nothing to reduce, or when its
      two tiles reduce equally often. */
  lemma {:induction false} ReportAgainstReplay(p: Plan, bytes: TensorBytes, strict: bool, rep: Report, rStrict: bool)
    requires MapPlan(p, bytes, strict) == Ok(rep)
    ensures var n, cmds, counters := TilesOf(p), p.commands, Replay(rep.routes, TilesOf(p), rStrict).counters;
            && |rep.tiles| == |counters| == n
            && BytesMatch(rep.tiles, counters)
            && (PacketsMatch(rep.tiles, counters) <==> NoneNegative(n, cmds, |cmds|))
            && (BarriersMatch(rep.tiles, counters) <==> n == 1 || Total(cmds, BarrierCommands()) == 0)
            && (ReductionsMatch(rep.tiles, counters) <==>
                  || Total(cmds, Reduces(n)) == 0
                  || (n == 2 && Total(cmds, ReducesOn(n, 0)) == Total(cmds, ReducesOn(n, 1))))
  {
    var n, cmds := TilesOf(p), p.commands;
    KindsMean(rep.routes, cmds, n, 0);
    KindsMean(rep.routes, cmds, n, 1);
    hide *;
    ReportFacts(p, bytes, strict, rep);
    MappedKinds(n, bytes, cmds, |cmds|, 0);
    MappedKinds(n, bytes, cmds, |cmds|, 1);
    assert cmds[..|cmds|] == cmds;
    SameTiles(rep.routes, n, rStrict, rep.tiles);
    PacketsAgreeIff(rep.routes, n, rStrict);
    BarriersAgreeIff(rep.routes, n, rStrict);
    ReductionsAgreeIff(rep.routes, n, rStrict);
  }

  lemma {:induction false} SameTiles(rs: seq<Route>, n: nat, strict: bool, tiles: seq<TileSummary>)
    requires MapperRoutes(rs, n) && |tiles| == n && forall t :: 0 <= t < n ==> tiles[t] == SummaryOf(rs, t)
    ensures var counters := Replay(rs, n, strict).counters;
            && |counters| == n
            && BytesMatch(tiles, counters)
            && (PacketsMatch(tiles, counters) <==> PacketsAgree(rs, n, strict))
            && (BarriersMatch(tiles, counters) <==> BarriersAgree(rs, n, strict))
            && (ReductionsMatch(tiles, counters) <==> ReductionsAgree(rs, n, strict))
  {
    ReplayUnfolds(rs, n, strict);
    hide *;
    SameBytes(rs, n, strict, tiles);
    SamePackets(rs, n, strict, tiles);
    SameBarriers(rs, n, strict, tiles);
    SameReductions(rs, n, strict, tiles);
  }

  lemma {:induction false} SameBytes(rs: seq<Route>, n: nat, strict: bool, tiles: seq<TileSummary>)
    requires |Replay(rs, n, strict).counters| == n
    requires MapperRoutes(rs, n) && |tiles| == n && forall t :: 0 <= t < n ==> tiles[t] == SummaryOf(rs, t)
    ensures BytesMatch(tiles, Replay(rs, n, strict).counters)
  {
    hide Replay;
    hide SummaryOf;
    hide MapperRoutes;
    forall t | 0 <= t < n
      ensures var c, s := Replay(rs, n, strict).counters[t], tiles[t];
              && c.bytesSent == s.outBytes && c.bytesReceived == s.inBytes
              && c.reductionsStarted == s.reductionsStarted && c.routeFailures == s.routeFailures
    {
      BytesAgree(rs, n, strict, t);
    }
  }

  lemma {:induction false} SamePackets(rs: seq<Route>, n: nat, strict: bool, tiles: seq<TileSummary>)
    requires |Replay(rs, n, strict).counters| == n
    requires |tiles| == n && forall t :: 0 <= t < n ==> tiles[t] == SummaryOf(rs, t)
    ensures PacketsMatch(tiles, Replay(rs, n, strict).counters) <==> PacketsAgree(rs, n, strict)
  {
    hide Replay;
    hide SummaryOf;
  }

  lemma {:induction false} SameBarriers(rs: seq<Route>, n: nat, strict: bool, tiles: seq<TileSummary>)
    requires |Replay(rs, n, strict).counters| == n
    requires |tiles| == n && forall t :: 0 <= t < n ==> tiles[t] == SummaryOf(rs, t)
    ensures BarriersMatch(tiles, Replay(rs, n, strict).counters) <==> BarriersAgree(rs, n, strict)
  {
    hide Replay;
    hide SummaryOf;
  }

  lemma {:induction false} SameReductions(rs: seq<Route>, n: nat, strict: bool, tiles: seq<TileSummary>)
    requires |Replay(rs, n, strict).counters| == n
    requires |tiles| == n && forall t :: 0 <= t < n ==> tiles[t] == SummaryOf(rs, t)
    ensures ReductionsMatch(tiles, Replay(rs, n, strict).counters) <==> ReductionsAgree(rs, n, strict)
  {
    hide Replay;
    hide SummaryOf;
  }

  // --------------------------------------------- report against bandwidth

  lemma {:induction false} EstimatesSuffice(rs: seq<Route>, n: nat)
    requires MapperRoutes(rs, n) && NonNegative(rs)
    ensures Total(rs, EffectivePackets) == Total(rs, PacketsOf)
  {
    MapperSources(rs, n);
    hide MapperRoutes;
    hide EffectivePackets;
    TotalSame(rs, EffectivePackets, PacketsOf);
  }

  /** A report of any accepted plan under the bandwidth model.  The simulated tiles together put on the wire what
      the aggregate counts, and that is the payload estimate of the report's header plus the overhead of the
      packets replay sees; without negative sizes those are the packets of the header, and no route and no
      tile is in worse standing than the aggregate. */
  lemma {:induction false} ReportAgainstBandwidth(p: Plan, bytes: TensorBytes, strict: bool, rep: Report, rStrict: bool, args: BwArgs)
    requires MapPlan(p, bytes, strict) == Ok(rep)
    ensures var n, rs := TilesOf(p), rep.routes;
            var aggregate := Simulated(rs, n, args);
            && SumOutWire(Tiles(rs, n, args)) == aggregate.totalWire
            && aggregate.totalPayload == rep.header.payloadEstimate == SumSent(Replay(rs, n, rStrict).counters).1
            && aggregate.totalWire == rep.header.payloadEstimate + OverheadBytes(args.overhead, SumSent(Replay(rs, n, rStrict).counters).0)
            && (NoneNegative(n, p.commands, |p.commands|) ==>
                  aggregate.totalWire == rep.header.payloadEstimate + OverheadBytes(args.overhead, rep.header.packetEstimate))
            && (NoneNegative(n, p.commands, |p.commands|) && args.rate > 0.0 && args.overhead >= 0 ==>
                  && (forall i :: 0 <= i < |rs| ==> NoWorse(SimulateRoute(rs[i], args).status, aggregate.status))
                  && (forall t :: 0 <= t < n ==> NoWorse(TileOf(rs, t, args).status, aggregate.status)))
  {
    var n, rs := TilesOf(p), rep.routes;
    TotalOfResults(rs, args);
    hide *;
    ReportFacts(p, bytes, strict, rep);
    MapperRoutesUnrepeated(rs, n);
    WireIsConserved(rs, n, args, rStrict);
    WireIsPayloadPlusOverhead(rs, args.overhead);
    AggregateTotals(rs, n, args);
    if NoneNegative(n, p.commands, |p.commands|) {
      EstimatesSuffice(rs, n);
      if args.rate > 0.0 && args.overhead >= 0 {
        AggregateDominates(rs, n, args);
      }
    }
  }

  lemma {:induction false} AggregateTotals(rs: seq<Route>, n: nat, args: BwArgs)
    ensures Simulated(rs, n, args).totalWire == Total(rs, WireOf(args.overhead))
    ensures Simulated(rs, n, args).totalPayload == Total(rs, PayloadOf)
  {
    TotalOfResults(rs, args);
    hide Total;
    hide FirstMax;
    hide Tiles;
    hide SimulateAll;
    hide WireOf;
  }

  // ------------------------------------------------- plans that part the two

  /** A plan of one command. */
  function Single(tileCount: nat, kind: CommandType, size: int): Plan {
    Plan(PLAN_VERSION, PlanHeader(tileCount, 0, 1, "m", "s", "ok"),
         [Command(1, kind, 0, Some(0), "s", "m", None, None, None, None, None, 0, 0, size, 0, None, "")])
  }

  lemma {:induction false} SingleMaps(tileCount: nat, kind: CommandType, size: int)
    requires tileCount > 0 && !kind.UnknownCommand?
    ensures MapPlan(Single(tileCount, kind, size), map[], false).Ok?
  {
    var p := Single(tileCount, kind, size);
    MapperAccepts(p.commands, tileCount, 1);
    hide MapperCheckCommands;
    hide MapCommands;
    hide Total;
    hide Summaries;
  }

  /** The mapper accepts a send of minus one byte between two tiles, and its own report is refused. */
  lemma {:induction false} NegativeSendIsRefused()
    ensures var mapped := MapPlan(Single(2, FabricSend, -1), map[], false);
            mapped.Ok? && Errors(mapped.value, false) != []
  {
    SingleMaps(2, FabricSend, -1);
    var p := Single(2, FabricSend, -1);
    assert EmitsNegative(2, p.commands[0]);
    var rep := MapPlan(p, map[], false).value;
    hide MapPlan;
    hide Errors;
    MapperReportValidates(p, map[], false, false, rep);
  }

  lemma {:induction false} SingleTotal(c: Command, f: Command -> int)
    ensures Total([c], f) == f(c)
  {
    TotalSnoc([], c, f);
    assert [] + [c] == [c];
  }

  /** One barrier on two tiles, and one reduction on three: report and replay count differently. */
  lemma {:induction false} BarrierParts()
    ensures var p := Single(2, CommandType.TileBarrier, 0);
            && MapPlan(p, map[], false).Ok?
            && var rep := MapPlan(p, map[], false).value;
               && |rep.tiles| == |Replay(rep.routes, 2, false).counters|
               && !BarriersMatch(rep.tiles, Replay(rep.routes, 2, false).counters)
  {
    var p := Single(2, CommandType.TileBarrier, 0);
    SingleTotal(p.commands[0], BarrierCommands());
    assert TilesOf(p) == 2 && BarrierCommands()(p.commands[0]) == 1 && p.commands == [p.commands[0]];
    hide *;
    SingleMaps(2, CommandType.TileBarrier, 0);
    ReportAgainstReplay(p, map[], false, MapPlan(p, map[], false).value, false);
  }

  lemma {:induction false} ReductionParts()
    ensures var p := Single(3, FabricReduce, 8);
            && MapPlan(p, map[], false).Ok?
            && var rep := MapPlan(p, map[], false).value;
               && |rep.tiles| == |Replay(rep.routes, 3, false).counters|
               && !ReductionsMatch(rep.tiles, Replay(rep.routes, 3, false).counters)
  {
    var p := Single(3, FabricReduce, 8);
    SingleTotal(p.commands[0], Reduces(3));
    assert TilesOf(p) == 3 && Reduces(3)(p.commands[0]) == 1 && p.commands == [p.commands[0]];
    hide *;
    SingleMaps(3, FabricReduce, 8);
    ReportAgainstReplay(p, map[], false, MapPlan(p, map[], false).value, false);
  }
}
