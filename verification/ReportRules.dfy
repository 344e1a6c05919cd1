module ReportRules {
  // When a route report draws no error, whoever wrote it: the format's rules, field by field.

  import opened Common
  import opened Tally
  import opened Routes
  import opened RouteBuilding
  import opened RouteValidation
  import T = RouteTheorems
  import TrafficMeaning

  predicate SoundHeader(h: ReportHeader, strict: bool) {
    && h.version == 1 && h.tileCount > 0 && h.routeCount >= 0 && h.packetEstimate >= 0 && h.payloadEstimate >= 0
    && match h.status
       case Pass => true
       case WarnStatus => !strict
       case Fail => !strict
       case OtherReport(_) => false
  }

  predicate IsData(t: RouteType) {
    match t
    case ActivationSend => true
    case ActivationBroadcast => true
    case PartialReduce => true
    case LogitsReduce => true
    case KvTransfer => true
    case _ => false
  }

  /** Where a route may go: barriers, traces and acknowledgements may reach their sender, and the last two nobody at all. */
  ghost predicate SoundTargets(r: Route, n: int) {
    && 0 <= r.sourceTile < n
    && (forall t :: t in r.destinationTiles ==> 0 <= t < n)
    && match r.routeType
       case BarrierRoute => |r.destinationTiles| > 0
       case TraceEvent => true
       case ControlAck => true
       case OtherRoute(_) => false
       case _ => |r.destinationTiles| > 0 && r.sourceTile !in r.destinationTiles
  }

  predicate SoundLoad(r: Route) {
    if IsData(r.routeType) then r.payloadBytes > 0 && r.packetCount > 0 else r.payloadBytes >= 0 && r.packetCount >= 0
  }

  predicate SoundPolicy(r: Route) {
    && !r.behavior.OtherBehavior? && !r.ordering.OtherOrdering? && !r.status.OtherStatus?
    && match r.routeType
       case PartialReduce => TrafficMeaning.NamesCombination(r.behavior) && r.reductionId >= 0
       case LogitsReduce => TrafficMeaning.NamesCombination(r.behavior) && r.reductionId >= 0
       case BarrierRoute => r.ordering == Barriered
       case _ => true
  }

  ghost predicate SoundRoutes(rs: seq<Route>, n: int) {
    && (forall i :: 0 <= i < |rs| ==> SoundTargets(rs[i], n) && SoundLoad(rs[i]) && SoundPolicy(rs[i]))
    && forall i, j :: 0 <= i < j < |rs| ==> rs[i].routeId != rs[j].routeId
  }

  predicate SoundTile(t: TileSummary, n: int) {
    && 0 <= t.tileId < n
    && t.outPackets >= 0 && t.inPackets >= 0 && t.outBytes >= 0 && t.inBytes >= 0 && t.reductionsStarted >= 0
    && t.reductionsCompleted >= 0 && t.barriersStarted >= 0 && t.barriersCompleted >= 0 && t.routeFailures >= 0
    && (t.bandwidth.Some? ==> t.bandwidth.value >= 0.0)
  }

  ghost predicate SoundTiles(ts: seq<TileSummary>, n: int) {
    && (forall i :: 0 <= i < |ts| ==> SoundTile(ts[i], n))
    && forall i, j :: 0 <= i < j < |ts| ==> ts[i].tileId != ts[j].tileId
  }

  function Packets(): Route -> int {
    (r: Route) => r.packetCount
  }

  /** Every tile record counts the packets its routes carry. */
  ghost predicate PacketsAddUp(rs: seq<Route>, ts: seq<TileSummary>) {
    forall i :: 0 <= i < |ts| ==> TileAddsUp(rs, ts[i])
  }

  ghost predicate TileAddsUp(rs: seq<Route>, t: TileSummary) {
    && t.outPackets == Total(rs, TrafficMeaning.From(t.tileId, Packets()))
    && t.inPackets == Total(rs, TrafficMeaning.Listed(t.tileId, Packets()))
  }

  ghost predicate Sound(rep: Report, strict: bool) {
    && SoundHeader(rep.header, strict) && SoundRoutes(rep.routes, rep.header.tileCount)
    && SoundTiles(rep.tiles, rep.header.tileCount) && rep.header.routeCount == |rep.routes|
    && (strict ==> PacketsAddUp(rep.routes, rep.tiles))
  }

  // ------------------------------------------------------------------ phases

  lemma {:induction false} HeaderMeans(h: ReportHeader, strict: bool)
    ensures HeaderErrors([], h, strict) == [] <==> SoundHeader(h, strict)
  {
  }

  lemma {:induction false} RouteMeans(r: Route, n: nat)
    requires n > 0
    ensures RouteOk(r, n, false) <==> SoundTargets(r, n) && SoundLoad(r) && SoundPolicy(r)
  {
    TargetsMean(r, n);
    hide DestinationsOk;
    hide SoundTargets;
  }

  lemma {:induction false} TargetsMean(r: Route, n: nat)
    requires n > 0
    ensures SoundTargets(r, n) <==> !r.routeType.OtherRoute? && !BadTile(r.sourceTile, n) && DestinationsOk(r, n)
  {
    var tiles := r.destinationTiles;
    if SoundTargets(r, n) {
      forall i | 0 <= i < |tiles|
        ensures 0 <= tiles[i] < n && (tiles[i] == r.sourceTile ==> r.sourceTile in tiles)
      {
        assert tiles[i] in tiles;
      }
    }
    if !r.routeType.OtherRoute? && DestinationsOk(r, n) {
      forall t | t in tiles
        ensures 0 <= t < n
      {
        var i :| 0 <= i < |tiles| && tiles[i] == t;
      }
    }
  }

  /** The first k routes draw no error, and all of them stay. */
  ghost predicate RoutesClean(rs: seq<Route>, n: nat, k: nat)
    requires k <= |rs|
  {
    forall i :: 0 <= i < k ==> RouteOk(rs[i], n, SeenBefore(rs, i))
  }

  lemma {:induction false} RouteErrorsMean(acc: seq<Finding>, rs: seq<Route>, n: nat, k: nat)
    requires k <= |rs|
    ensures |AllRouteErrors(acc, rs, n, k)| >= |acc|
    ensures AllRouteErrors(acc, rs, n, k) == acc <==> RoutesClean(rs, n, k)
    ensures RoutesClean(rs, n, k) ==> ValidRoutes(rs, n, k) == rs[..k]
  {
    hide RouteErrors;
    hide RouteOk;
    if k > 0 {
      RouteErrorsMean(acc, rs, n, k - 1);
      T.RouteErrorsIff(AllRouteErrors(acc, rs, n, k - 1), k - 1, rs[k - 1], n, SeenBefore(rs, k - 1));
      assert rs[..k] == rs[..k - 1] + [rs[k - 1]];
    }
  }

  lemma {:induction false} RoutesMean(rs: seq<Route>, n: nat)
    requires n > 0
    ensures RoutesClean(rs, n, |rs|) <==> SoundRoutes(rs, n)
  {
    forall i | 0 <= i < |rs|
      ensures RouteOk(rs[i], n, SeenBefore(rs, i)) <==>
                !SeenBefore(rs, i) && SoundTargets(rs[i], n) && SoundLoad(rs[i]) && SoundPolicy(rs[i])
    {
      RouteMeans(rs[i], n);
      SeenIsBad(rs[i], n);
    }
    hide RouteOk;
    hide SoundTargets;
    hide SoundLoad;
    hide SoundPolicy;
    if RoutesClean(rs, n, |rs|) {
      forall i, j | 0 <= i < j < |rs|
        ensures rs[i].routeId != rs[j].routeId
      {
        assert !SeenBefore(rs, j);
      }
    }
  }

  lemma {:induction false} SeenIsBad(r: Route, n: nat)
    ensures !RouteOk(r, n, true)
  {
  }

  lemma {:induction false} FieldErrorsMean(acc: seq<Finding>, at: int, fields: seq<int>, k: nat)
    requires k <= |fields|
    ensures |FieldErrors(acc, at, fields, k)| >= |acc|
    ensures if forall i :: 0 <= i < k ==> fields[i] >= 0 then FieldErrors(acc, at, fields, k) == acc
            else |FieldErrors(acc, at, fields, k)| > |acc|
  {
    if k > 0 {
      FieldErrorsMean(acc, at, fields, k - 1);
    }
  }

  lemma {:induction false} TileErrorsMean(acc: seq<Finding>, at: int, t: TileSummary, n: nat, seen: bool)
    ensures if TileOk(t, n, seen) then TileErrors(acc, at, t, n, seen) == acc else |TileErrors(acc, at, t, n, seen)| > |acc|
  {
    var e := if BadTile(t.tileId, n) then Add(acc, true, InvalidTileId, at) else Add(acc, seen, DuplicateTileId, at);
    FieldErrorsMean(e, at, CheckedFields(t), |CheckedFields(t)|);
    hide CheckedFields;
    hide FieldErrors;
    hide BadTile;
  }

  ghost predicate TilesClean(ts: seq<TileSummary>, n: nat, k: nat)
    requires k <= |ts|
  {
    forall i :: 0 <= i < k ==> TileOk(ts[i], n, TileSeenBefore(ts, n, i))
  }

  lemma {:induction false} AllTilesMean(acc: seq<Finding>, ts: seq<TileSummary>, n: nat, k: nat)
    requires k <= |ts|
    ensures |AllTileErrors(acc, ts, n, k)| >= |acc|
    ensures AllTileErrors(acc, ts, n, k) == acc <==> TilesClean(ts, n, k)
    ensures TilesClean(ts, n, k) ==> ValidTiles(ts, n, k) == ts[..k]
  {
    hide TileErrors;
    hide TileOk;
    if k > 0 {
      AllTilesMean(acc, ts, n, k - 1);
      TileErrorsMean(AllTileErrors(acc, ts, n, k - 1), k - 1, ts[k - 1], n, TileSeenBefore(ts, n, k - 1));
      assert ts[..k] == ts[..k - 1] + [ts[k - 1]];
    }
  }

  lemma {:induction false} TileMeans(t: TileSummary, n: nat, seen: bool)
    requires n > 0
    ensures TileOk(t, n, seen) <==> !seen && SoundTile(t, n)
  {
    var f := CheckedFields(t);
    assert |f| == 9 && f[0] == t.outPackets && f[1] == t.inPackets && f[2] == t.outBytes && f[3] == t.inBytes;
    assert f[4] == t.reductionsStarted && f[5] == t.reductionsCompleted && f[6] == t.barriersStarted;
    assert f[7] == t.barriersCompleted && f[8] == t.routeFailures;
    hide CheckedFields;
  }

  lemma {:induction false} TilesMean(ts: seq<TileSummary>, n: nat)
    requires n > 0
    ensures TilesClean(ts, n, |ts|) <==> SoundTiles(ts, n)
  {
    forall i | 0 <= i < |ts|
      ensures TileOk(ts[i], n, TileSeenBefore(ts, n, i)) <==> !TileSeenBefore(ts, n, i) && SoundTile(ts[i], n)
    {
      TileMeans(ts[i], n, TileSeenBefore(ts, n, i));
    }
    hide TileOk;
    if TilesClean(ts, n, |ts|) {
      forall i, j | 0 <= i < j < |ts|
        ensures ts[i].tileId != ts[j].tileId
      {
        assert SoundTile(ts[i], n) && !TileSeenBefore(ts, n, j);
      }
    }
    hide SoundTile;
  }

  lemma {:induction false} ConsistencyMeans(acc: seq<Finding>, rs: seq<Route>, ts: seq<TileSummary>, k: nat)
    requires k <= |ts| && forall i :: 0 <= i < |ts| ==> ts[i].tileId >= 0
    ensures |ConsistencyFindings(acc, rs, ts, k)| >= |acc|
    ensures ConsistencyFindings(acc, rs, ts, k) == acc <==> forall i :: 0 <= i < k ==> TileAddsUp(rs, ts[i])
  {
    hide TileAddsUp;
    hide ExpectedOut;
    hide ExpectedIn;
    if k > 0 {
      ConsistencyMeans(acc, rs, ts, k - 1);
      AddsUpMeans(rs, ts[k - 1]);
    }
  }

  lemma {:induction false} AddsUpMeans(rs: seq<Route>, t: TileSummary)
    requires t.tileId >= 0
    ensures TileAddsUp(rs, t) <==> t.outPackets == ExpectedOut(rs, t.tileId) && t.inPackets == ExpectedIn(rs, t.tileId)
  {
    TrafficMeaning.SentIs(rs, t.tileId, PacketsOf, Packets());
    TrafficMeaning.ReceivedIs(rs, t.tileId, PacketsOf, Packets());
    hide Sent;
    hide Received;
    hide Total;
  }

  /** The phases together. */
  lemma {:induction false} PhasesMean(rep: Report, strict: bool)
    ensures var n, rs, ts := DeclaredTiles(rep.header), rep.routes, rep.tiles;
            var clean := HeaderErrors([], rep.header, strict) == [] && RoutesClean(rs, n, |rs|) && TilesClean(ts, n, |ts|) && rep.header.routeCount == |rs|;
            && (Errors(rep, strict) == [] <==> clean && (strict ==> ConsistencyFindings([], rs, ts, |ts|) == []))
            && (RoutesClean(rs, n, |rs|) && TilesClean(ts, n, |ts|) ==> Warnings(rep) == ConsistencyFindings([], rs, ts, |ts|))
  {
    var n, rs, ts := DeclaredTiles(rep.header), rep.routes, rep.tiles;
    var h := HeaderErrors([], rep.header, strict);
    RouteErrorsMean(h, rs, n, |rs|);
    var e := AllRouteErrors(h, rs, n, |rs|);
    AllTilesMean(e, ts, n, |ts|);
    var f := CountErrors(AllTileErrors(e, ts, n, |ts|), rep);
    ConsistencyGrows(f, ValidRoutes(rs, n, |rs|), ValidTiles(ts, n, |ts|), |ValidTiles(ts, n, |ts|)|);
    assert rs[..|rs|] == rs && ts[..|ts|] == ts;
    hide HeaderErrors;
    hide AllRouteErrors;
    hide AllTileErrors;
    hide ConsistencyFindings;
    hide ValidRoutes;
    hide ValidTiles;
    hide RoutesClean;
    hide TilesClean;
  }

  lemma {:induction false} DeclaredMeans(h: ReportHeader)
    ensures SoundHeader(h, false) ==> DeclaredTiles(h) == h.tileCount > 0
    ensures SoundHeader(h, true) ==> SoundHeader(h, false)
  {
  }

  lemma {:induction false} PacketsMean(rs: seq<Route>, ts: seq<TileSummary>, n: nat)
    requires SoundTiles(ts, n)
    ensures ConsistencyFindings([], rs, ts, |ts|) == [] <==> PacketsAddUp(rs, ts)
  {
    forall i | 0 <= i < |ts|
      ensures ts[i].tileId >= 0
    {
      assert SoundTile(ts[i], n);
    }
    hide TileAddsUp;
    hide ConsistencyFindings;
    ConsistencyMeans([], rs, ts, |ts|);
  }

  lemma {:induction false} SoundUnfolds(rep: Report, strict: bool)
    ensures Sound(rep, strict) <==>
      && SoundHeader(rep.header, strict) && SoundRoutes(rep.routes, rep.header.tileCount)
      && SoundTiles(rep.tiles, rep.header.tileCount) && rep.header.routeCount == |rep.routes|
      && (strict ==> PacketsAddUp(rep.routes, rep.tiles))
  {
    hide SoundHeader;
    hide SoundRoutes;
    hide SoundTiles;
    hide PacketsAddUp;
  }

  /** A report draws no error exactly when it keeps all rules, and then a warning exactly when some tile's packets do not
      add up. */
  lemma {:induction false} ReportIsSoundIff(rep: Report, strict: bool)
    ensures Errors(rep, strict) == [] <==> Sound(rep, strict)
    ensures Sound(rep, false) ==> (Warnings(rep) == [] <==> PacketsAddUp(rep.routes, rep.tiles))
  {
    hide *;
    var n := DeclaredTiles(rep.header);
    PhasesMean(rep, strict);
    HeaderMeans(rep.header, strict);
    DeclaredMeans(rep.header);
    SoundUnfolds(rep, strict);
    SoundUnfolds(rep, false);
    if SoundHeader(rep.header, false) {
      RoutesMean(rep.routes, n);
      TilesMean(rep.tiles, n);
      if SoundTiles(rep.tiles, n) {
        PacketsMean(rep.routes, rep.tiles, n);
      }
    }
  }

  lemma {:induction false} ConsistencyGrows(acc: seq<Finding>, rs: seq<Route>, ts: seq<TileSummary>, k: nat)
    requires k <= |ts|
    ensures |ConsistencyFindings(acc, rs, ts, k)| >= |acc|
  {
    if k > 0 {
      ConsistencyGrows(acc, rs, ts, k - 1);
    }
  }
}
