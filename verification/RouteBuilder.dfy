/** From a command plan to a fabric route report: the stateful builder and the mapping loop. */
module RouteBuilding {
  import opened Common
  import opened Tally
  import opened CommandPlan
  import opened Routes

  const CONTROL_PAYLOAD_BYTES := 64
  const TRACE_PAYLOAD_BYTES := 64
  const DEFAULT_ACTIVATION_PAYLOAD_BYTES := 1024

  datatype MapWarning = RouteOmitted(commandId: int) | PayloadUnknown(commandId: int) | Unrecognized(commandId: int)

  /** A defaultdict(int). */
  function Get(m: map<int, int>, k: int): int {
    if k in m then m[k] else 0
  }

  function Bump(m: map<int, int>, k: int, x: int): map<int, int> {
    m[k := Get(m, k) + x]
  }

  /** The route as `_add` completes it: id and packet estimate are the builder's. */
  function Completed(draft: Route, id: int): Route {
    draft.(routeId := id, packetCount := if draft.payloadBytes > 0 then 1 else 0, status := Healthy)
  }

  function ControlAckDraft(tileCount: nat, tile: int, commandId: int, fence: int): Route {
    Route(0, ControlAck, tile, OtherTiles(tileCount, tile), None, commandId, CONTROL_PAYLOAD_BYTES, 0, fence, 0, NoReduction, InOrder, 0, Healthy)
  }

  function TraceDraft(tileCount: nat, tile: int, commandId: int, fence: int): Route {
    Route(0, TraceEvent, tile, OtherTiles(tileCount, tile), None, commandId, TRACE_PAYLOAD_BYTES, 0, fence, 0, NoReduction, InOrder, commandId, Healthy)
  }

  function BarrierDraft(tileCount: nat, tile: int, commandId: int, fence: int): Route {
    Route(0, BarrierRoute, tile, AllTiles(tileCount), None, commandId, 0, 0, fence, 0, NoReduction, Barriered, 0, Healthy)
  }

  function SendDraft(tileCount: nat, tile: int, commandId: int, fence: int, name: Option<string>, payload: int): Route {
    Route(0, ActivationSend, tile, OtherTiles(tileCount, tile), name, commandId, payload, 0, fence, 0, NoReduction, InOrder, 0, Healthy)
  }

  function ReduceDraft(tileCount: nat, tile: int, commandId: int, fence: int, name: Option<string>, payload: int, id: int, b: Behavior): Route {
    Route(0, PartialReduce, tile, OtherTiles(tileCount, tile), name, commandId, payload, 0, fence, id, b, InOrder, 0, Healthy)
  }

  // --------------------------------------------------------------- counters

  /** The counter holds what every tile has sent, or received, under weight w. */
  ghost predicate TalliesSent(m: map<int, int>, rs: seq<Route>, w: Route -> int) {
    forall t: int :: Get(m, t) == Sent(rs, t, w)
  }

  ghost predicate TalliesReceived(m: map<int, int>, rs: seq<Route>, w: Route -> int) {
    forall t: int :: Get(m, t) == Received(rs, t, w)
  }

  lemma {:induction false} SentStep(m: map<int, int>, rs: seq<Route>, r: Route, w: Route -> int)
    requires TalliesSent(m, rs, w)
    ensures TalliesSent(Bump(m, r.sourceTile, w(r)), rs + [r], w)
  {
    hide Sent;
    forall t: int
      ensures Get(Bump(m, r.sourceTile, w(r)), t) == Sent(rs + [r], t, w)
    {
      TrafficSnoc(rs, r, t, w);
    }
  }

  /** m' is m plus x for every listing of a tile. */
  ghost predicate Delivered(m: map<int, int>, m': map<int, int>, tiles: seq<int>, x: int) {
    forall t: int :: Get(m', t) == Get(m, t) + Hits(tiles, t, x)
  }

  lemma {:induction false} ReceivedStep(m: map<int, int>, m': map<int, int>, rs: seq<Route>, r: Route, w: Route -> int)
    requires TalliesReceived(m, rs, w) && Delivered(m, m', r.destinationTiles, w(r))
    ensures TalliesReceived(m', rs + [r], w)
  {
    hide Received;
    hide Hits;
    hide Get;
    forall t: int
      ensures Get(m', t) == Received(rs + [r], t, w)
    {
      TrafficSnoc(rs, r, t, w);
    }
  }

  ghost predicate Control(rs: seq<Route>, tileCount: nat, started: map<int, int>, completed: map<int, int>,
                          barriers: map<int, int>, barriers': map<int, int>) {
    && TalliesSent(started, rs, PartialReductionsOf)
    && TalliesReceived(completed, rs, PartialReductionsOf)
    && (forall t :: 0 <= t < tileCount ==> Get(barriers, t) == Total(rs, BarriersOf))
    && (forall t :: 0 <= t < tileCount ==> Get(barriers', t) == Total(rs, BarriersOf))
  }

  /** What a reduction does to the counters of reductions and barriers. */
  lemma {:induction false} ReduceStep(rs: seq<Route>, r: Route, tileCount: nat, started: map<int, int>, completed: map<int, int>,
                                      completed': map<int, int>, barriers: map<int, int>, barriers': map<int, int>)
    requires Control(rs, tileCount, started, completed, barriers, barriers')
    requires Delivered(completed, completed', r.destinationTiles, 1) && r.routeType.PartialReduce?
    ensures Control(rs + [r], tileCount, Bump(started, r.sourceTile, 1), completed', barriers, barriers')
  {
    hide TalliesSent;
    hide TalliesReceived;
    hide Delivered;
    hide Get;
    hide Bump;
    SentStep(started, rs, r, PartialReductionsOf);
    ReceivedStep(completed, completed', rs, r, PartialReductionsOf);
    TotalSnoc(rs, r, BarriersOf);
  }

  lemma {:induction false} DeliveredStep(m: map<int, int>, m': map<int, int>, tiles: seq<int>, i: nat, x: int)
    requires i < |tiles| && Delivered(m, m', tiles[..i], x)
    ensures Delivered(m, Bump(m', tiles[i], x), tiles[..i + 1], x)
  {
    assert tiles[..i + 1][..i] == tiles[..i];
  }

  /** A route that w does not count leaves both tallies as they are. */
  lemma {:induction false} UncountedStep(m: map<int, int>, m': map<int, int>, rs: seq<Route>, r: Route, w: Route -> int)
    requires TalliesSent(m, rs, w) && TalliesReceived(m', rs, w) && w(r) == 0
    ensures TalliesSent(m, rs + [r], w) && TalliesReceived(m', rs + [r], w)
  {
    hide Sent;
    hide Received;
    hide Get;
    forall t: int
      ensures Get(m, t) == Sent(rs + [r], t, w) && Get(m', t) == Received(rs + [r], t, w)
    {
      TrafficSnoc(rs, r, t, w);
      HitsZero(r.destinationTiles, t);
    }
  }

  /** The incremental traffic counters are the sums over the routes so far, and ids count up from one. */
  ghost predicate Traffic(rs: seq<Route>, nextId: int, outPackets: map<int, int>, inPackets: map<int, int>,
                          outBytes: map<int, int>, inBytes: map<int, int>)
  {
    && nextId == |rs| + 1
    && (forall i :: 0 <= i < |rs| ==> rs[i].routeId == i + 1)
    && TalliesSent(outPackets, rs, PacketsOf) && TalliesSent(outBytes, rs, PayloadOf)
    && TalliesReceived(inPackets, rs, PacketsOf) && TalliesReceived(inBytes, rs, PayloadOf)
  }

  lemma {:induction false} TrafficStep(rs: seq<Route>, r: Route, outPackets: map<int, int>, inPackets: map<int, int>, outBytes: map<int, int>,
                                       inBytes: map<int, int>, inPackets': map<int, int>, inBytes': map<int, int>)
    requires Traffic(rs, r.routeId, outPackets, inPackets, outBytes, inBytes)
    requires Delivered(inPackets, inPackets', r.destinationTiles, r.packetCount)
    requires Delivered(inBytes, inBytes', r.destinationTiles, r.payloadBytes)
    ensures Traffic(rs + [r], r.routeId + 1, Bump(outPackets, r.sourceTile, r.packetCount), inPackets',
                    Bump(outBytes, r.sourceTile, r.payloadBytes), inBytes')
  {
    hide TalliesSent;
    hide TalliesReceived;
    hide Delivered;
    hide Bump;
    SentStep(outPackets, rs, r, PacketsOf);
    SentStep(outBytes, rs, r, PayloadOf);
    ReceivedStep(inPackets, inPackets', rs, r, PacketsOf);
    ReceivedStep(inBytes, inBytes', rs, r, PayloadOf);
  }

  lemma {:induction false} TrafficIds(rs: seq<Route>, nextId: int, outPackets: map<int, int>, inPackets: map<int, int>,
                                      outBytes: map<int, int>, inBytes: map<int, int>)
    requires Traffic(rs, nextId, outPackets, inPackets, outBytes, inBytes)
    ensures nextId == |rs| + 1
  {
    hide TalliesSent;
    hide TalliesReceived;
  }

  // ---------------------------------------------------------------- builder

  class RouteBuilder {
    const tileCount: nat
    var routes: seq<Route>
    var nextId: int
    var outPackets: map<int, int>
    var inPackets: map<int, int>
    var outBytes: map<int, int>
    var inBytes: map<int, int>
    var reductionsStarted: map<int, int>
    var reductionsCompleted: map<int, int>
    var barriersStarted: map<int, int>
    var barriersCompleted: map<int, int>
    var warnings: seq<MapWarning>

    ghost predicate TrafficValid()
      reads this
    {
      Traffic(routes, nextId, outPackets, inPackets, outBytes, inBytes)
    }

    /** The reduction and barrier counters, likewise. */
    ghost predicate ControlValid(rs: seq<Route>)
      reads this
    {
      Control(rs, tileCount, reductionsStarted, reductionsCompleted, barriersStarted, barriersCompleted)
    }

    ghost predicate Valid()
      reads this
    {
      TrafficValid() && ControlValid(routes)
    }

    constructor (tileCount: nat)
      ensures Valid() && this.tileCount == tileCount && routes == [] && warnings == []
    {
      this.tileCount := tileCount;
      routes, nextId, warnings := [], 1, [];
      outPackets, inPackets, outBytes, inBytes := map[], map[], map[], map[];
      reductionsStarted, reductionsCompleted, barriersStarted, barriersCompleted := map[], map[], map[], map[];
    }

    /** `_add`: allocate an id, append the route, update the traffic counters of every tile it touches. */
    method Add(draft: Route)
      requires TrafficValid()
      modifies `routes, `nextId, `outPackets, `inPackets, `outBytes, `inBytes
      ensures TrafficValid() && routes == old(routes) + [Completed(draft, |old(routes)| + 1)]
    {
      var rid := nextId;
      nextId := nextId + 1;
      var r := Completed(draft, rid);
      assert r.routeId == rid;
      hide Completed;
      hide Bump;
      hide Traffic;
      hide Delivered;
      assert rid == |routes| + 1 by {
        TrafficIds(routes, rid, outPackets, inPackets, outBytes, inBytes);
      }
      routes := routes + [r];
      outPackets := Bump(outPackets, r.sourceTile, r.packetCount);
      outBytes := Bump(outBytes, r.sourceTile, r.payloadBytes);
      inPackets := Deliver(inPackets, r.destinationTiles, r.packetCount);
      inBytes := Deliver(inBytes, r.destinationTiles, r.payloadBytes);
      TrafficStep(old(routes), r, old(outPackets), old(inPackets), old(outBytes), old(inBytes), inPackets, inBytes);
    }

    /** The destination loop. */
    static method Deliver(m: map<int, int>, tiles: seq<int>, x: int) returns (m': map<int, int>)
      ensures Delivered(m, m', tiles, x)
    {
      m' := m;
      for i := 0 to |tiles|
        invariant Delivered(m, m', tiles[..i], x)
      {
        DeliveredStep(m, m', tiles, i, x);
        m' := Bump(m', tiles[i], x);
      }
      assert tiles[..|tiles|] == tiles;
    }

    /** A route that is neither a reduction nor a barrier leaves the control counters as they are. */
    lemma {:induction false} ControlKept(before: seq<Route>, r: Route)
      requires ControlValid(before) && !r.routeType.PartialReduce? && !r.routeType.BarrierRoute?
      ensures ControlValid(before + [r])
    {
      hide TalliesSent;
      hide TalliesReceived;
      TotalSnoc(before, r, BarriersOf);
      UncountedStep(reductionsStarted, reductionsCompleted, before, r, PartialReductionsOf);
    }

    method AddPlain(draft: Route)
      requires Valid() && !draft.routeType.PartialReduce? && !draft.routeType.BarrierRoute?
      modifies `routes, `nextId, `outPackets, `inPackets, `outBytes, `inBytes
      ensures Valid() && routes == old(routes) + [Completed(draft, |old(routes)| + 1)]
    {
      ControlKept(routes, Completed(draft, |routes| + 1));
      hide *;
      Add(draft);
    }

    /** `add_control_ack`: from one tile to all others; omitted with a warning when there are none. */
    method AddControlAck(tile: int, commandId: int, fence: int)
      requires Valid()
      modifies this
      ensures Valid()
      ensures var lone := OtherTiles(tileCount, tile) == [];
              && routes == old(routes) + (if lone then [] else [Completed(ControlAckDraft(tileCount, tile, commandId, fence), |old(routes)| + 1)])
              && warnings == old(warnings) + (if lone then [RouteOmitted(commandId)] else [])
    {
      hide Valid;
      if OtherTiles(tileCount, tile) == [] {
        Warn(RouteOmitted(commandId));
      } else {
        AddPlain(ControlAckDraft(tileCount, tile, commandId, fence));
      }
    }

    method AddTraceEvent(tile: int, commandId: int, fence: int)
      requires Valid()
      modifies this
      ensures Valid()
      ensures var lone := OtherTiles(tileCount, tile) == [];
              && routes == old(routes) + (if lone then [] else [Completed(TraceDraft(tileCount, tile, commandId, fence), |old(routes)| + 1)])
              && warnings == old(warnings) + (if lone then [RouteOmitted(commandId)] else [])
    {
      hide Valid;
      if OtherTiles(tileCount, tile) == [] {
        Warn(RouteOmitted(commandId));
      } else {
        AddPlain(TraceDraft(tileCount, tile, commandId, fence));
      }
    }

    method Warn(w: MapWarning)
      requires Valid()
      modifies `warnings
      ensures Valid() && warnings == old(warnings) + [w]
    {
      warnings := warnings + [w];
    }

    /** `add_tile_barrier`: to every tile including the source; every tile starts and completes it. */
    method AddTileBarrier(tile: int, commandId: int, fence: int)
      requires Valid()
      modifies this
      ensures Valid() && warnings == old(warnings)
      ensures routes == old(routes) + [Completed(BarrierDraft(tileCount, tile, commandId, fence), |old(routes)| + 1)]
    {
      hide Control;
      hide Traffic;
      ghost var before, r := routes, Completed(BarrierDraft(tileCount, tile, commandId, fence), |routes| + 1);
      assert r.routeType.BarrierRoute?;
      hide Completed;
      hide BarrierDraft;
      Add(BarrierDraft(tileCount, tile, commandId, fence));
      CountBarrier(before, r);
    }

    /** Every tile starts and completes the barrier. */
    method CountBarrier(ghost before: seq<Route>, ghost r: Route)
      requires ControlValid(before) && r.routeType.BarrierRoute?
      modifies `barriersStarted, `barriersCompleted
      ensures ControlValid(before + [r])
    {
      hide Get;
      hide TalliesSent;
      hide TalliesReceived;
      BumpBarriers();
      TotalSnoc(before, r, BarriersOf);
      UncountedStep(reductionsStarted, reductionsCompleted, before, r, PartialReductionsOf);
    }

    method BumpBarriers()
      modifies `barriersStarted, `barriersCompleted
      ensures forall t :: 0 <= t < tileCount ==> Get(barriersStarted, t) == Get(old(barriersStarted), t) + 1
      ensures forall t :: 0 <= t < tileCount ==> Get(barriersCompleted, t) == Get(old(barriersCompleted), t) + 1
    {
      for i := 0 to tileCount
        invariant forall t :: 0 <= t < i ==> Get(barriersStarted, t) == Get(old(barriersStarted), t) + 1
        invariant forall t :: 0 <= t < i ==> Get(barriersCompleted, t) == Get(old(barriersCompleted), t) + 1
        invariant forall t :: i <= t < tileCount ==> Get(barriersStarted, t) == Get(old(barriersStarted), t)
        invariant forall t :: i <= t < tileCount ==> Get(barriersCompleted, t) == Get(old(barriersCompleted), t)
      {
        barriersStarted := Bump(barriersStarted, i, 1);
        barriersCompleted := Bump(barriersCompleted, i, 1);
      }
    }

    method AddActivationSend(draft: Route)
      requires Valid() && draft.routeType.ActivationSend?
      modifies this
      ensures Valid() && warnings == old(warnings)
      ensures routes == old(routes) + [Completed(draft, |old(routes)| + 1)]
    {
      AddPlain(draft);
    }

    /** `add_partial_reduce`: the counters move before the route is appended. */
    method AddPartialReduce(draft: Route)
      requires Valid() && draft.routeType.PartialReduce?
      modifies this
      ensures Valid() && warnings == old(warnings)
      ensures routes == old(routes) + [Completed(draft, |old(routes)| + 1)]
    {
      hide Control;
      hide Traffic;
      ghost var r := Completed(draft, |routes| + 1);
      assert r.sourceTile == draft.sourceTile && r.destinationTiles == draft.destinationTiles && r.routeType.PartialReduce?;
      hide Completed;
      CountReduction(draft, routes, r);
      Add(draft);
    }

    /** The source starts a reduction and every destination completes one. */
    method CountReduction(draft: Route, ghost before: seq<Route>, ghost r: Route)
      requires ControlValid(before) && draft.routeType.PartialReduce? && r.routeType.PartialReduce?
      requires r.sourceTile == draft.sourceTile && r.destinationTiles == draft.destinationTiles
      modifies `reductionsStarted, `reductionsCompleted
      ensures ControlValid(before + [r])
    {
      hide Control;
      hide Bump;
      hide Delivered;
      ghost var started, completed := reductionsStarted, reductionsCompleted;
      reductionsStarted := Bump(reductionsStarted, draft.sourceTile, 1);
      reductionsCompleted := Deliver(reductionsCompleted, draft.destinationTiles, 1);
      ReduceStep(before, r, tileCount, started, completed, reductionsCompleted, barriersStarted, barriersCompleted);
    }

    /** `tile_summaries`. */
    method TileSummaries() returns (summaries: seq<TileSummary>)
      requires Valid()
      ensures summaries == Summaries(routes, tileCount)
    {
      summaries := [];
      for t := 0 to tileCount
        invariant summaries == Summaries(routes, t)
      {
        var s := TileSummary(t, Get(outPackets, t), Get(inPackets, t), Get(outBytes, t), Get(inBytes, t),
                             Get(reductionsStarted, t), Get(reductionsCompleted, t),
                             Get(barriersStarted, t), Get(barriersCompleted, t), 0, None);
        assert s == SummaryOf(routes, t);
        summaries := summaries + [s];
      }
    }
  }

  datatype TileSummary = TileSummary(
    tileId: int, outPackets: int, inPackets: int, outBytes: int, inBytes: int,
    reductionsStarted: int, reductionsCompleted: int, barriersStarted: int, barriersCompleted: int,
    routeFailures: int, bandwidth: Option<real>)

  /** A tile's record recomputed from the routes alone. */
  function SummaryOf(rs: seq<Route>, t: int): TileSummary {
    TileSummary(t, Sent(rs, t, PacketsOf), Received(rs, t, PacketsOf), Sent(rs, t, PayloadOf), Received(rs, t, PayloadOf),
                Sent(rs, t, PartialReductionsOf), Received(rs, t, PartialReductionsOf),
                Total(rs, BarriersOf), Total(rs, BarriersOf), 0, None)
  }

  function Summaries(rs: seq<Route>, n: nat): (s: seq<TileSummary>)
    ensures |s| == n
  {
    if n == 0 then [] else Summaries(rs, n - 1) + [SummaryOf(rs, n - 1)]
  }

  lemma {:induction false} SummariesAt(rs: seq<Route>, n: nat, t: nat)
    requires t < n
    ensures Summaries(rs, n)[t] == SummaryOf(rs, t)
  {
    if t < n - 1 {
      SummariesAt(rs, n - 1, t);
    }
  }

  // ---------------------------------------------------------------- mapping

  datatype TensorKey = ById(id: int) | ByName(name: string)

  /** Sizes from the optional placement report; only positive sizes are recorded. */
  type TensorBytes = m: map<TensorKey, int> | forall k :: k in m ==> m[k] > 0

  function Lookup(bytes: TensorBytes, key: TensorKey): (n: int)
    ensures n >= 0
  {
    if key in bytes then bytes[key] else 0
  }

  /** The payload of a send or reduce before the default applies: total_bytes, then tensor id, then name. */
  function KnownPayload(bytes: TensorBytes, c: Command): int {
    if c.totalBytes != 0 then c.totalBytes
    else
      var byId := if c.tensorId.Some? then Lookup(bytes, ById(c.tensorId.value)) else 0;
      if byId != 0 then byId
      else if c.tensorName.Some? then Lookup(bytes, ByName(c.tensorName.value)) else 0
  }

  function Payload(bytes: TensorBytes, c: Command): (n: int)
    ensures n < 0 <==> c.totalBytes < 0
    ensures n != 0
  {
    if KnownPayload(bytes, c) == 0 then DEFAULT_ACTIVATION_PAYLOAD_BYTES else KnownPayload(bytes, c)
  }

  /** Python's `needle in text`. */
  predicate Mentions(text: string, needle: string) {
    needle <= text || (|text| > 0 && Mentions(text[1..], needle))
  }

  function BehaviorFor(notes: string): (b: Behavior)
    ensures b.Explicit()
  {
    if Mentions(notes, "sum") then SumUp
    else if Mentions(notes, "concat") then Concat
    else if Mentions(notes, "max") then Max
    else if Mentions(notes, "topk") then TopK
    else SumUp
  }

  datatype Mapped = Mapped(routes: seq<Route>, warnings: seq<MapWarning>, reductions: nat)

  predicate LocalOnly(t: CommandType) {
    match t
    case ValidateTensor | TileBarrier | QueryCounters | TraceSnapshot | FabricSend | FabricReduce | UnknownCommand(_) => false
    case _ => true
  }

  function PayloadWarning(bytes: TensorBytes, c: Command): seq<MapWarning> {
    if KnownPayload(bytes, c) == 0 then [PayloadUnknown(c.commandId)] else []
  }

  /** What one command adds: at most one route, and its warnings. */
  function Emission(tileCount: nat, bytes: TensorBytes, c: Command, reductions: nat): (Option<Route>, seq<MapWarning>) {
    var lone := OtherTiles(tileCount, c.tileId) == [];
    var omitted := (None, [RouteOmitted(c.commandId)]);
    if LocalOnly(c.commandType) then (None, [])
    else match c.commandType
      case ValidateTensor => if lone then omitted else (Some(ControlAckDraft(tileCount, c.tileId, c.commandId, c.fenceId)), [])
      case QueryCounters => if lone then omitted else (Some(ControlAckDraft(tileCount, c.tileId, c.commandId, c.fenceId)), [])
      case TraceSnapshot => if lone then omitted else (Some(TraceDraft(tileCount, c.tileId, c.commandId, c.fenceId)), [])
      case TileBarrier => (Some(BarrierDraft(tileCount, c.tileId, c.commandId, c.fenceId)), [])
      case FabricSend =>
        if lone then (None, PayloadWarning(bytes, c) + [RouteOmitted(c.commandId)])
        else (Some(SendDraft(tileCount, c.tileId, c.commandId, c.fenceId, c.tensorName, Payload(bytes, c))), PayloadWarning(bytes, c))
      case FabricReduce =>
        if lone then (None, PayloadWarning(bytes, c) + [RouteOmitted(c.commandId)])
        else (Some(ReduceDraft(tileCount, c.tileId, c.commandId, c.fenceId, c.tensorName, Payload(bytes, c),
                               reductions + 1, BehaviorFor(c.notes))), PayloadWarning(bytes, c))
      case _ => (None, [Unrecognized(c.commandId)])
  }

  function StepMap(tileCount: nat, bytes: TensorBytes, m: Mapped, c: Command): Mapped {
    var (route, warnings) := Emission(tileCount, bytes, c, m.reductions);
    Mapped(if route.Some? then m.routes + [Completed(route.value, |m.routes| + 1)] else m.routes,
           m.warnings + warnings,
           if route.Some? && c.commandType.FabricReduce? then m.reductions + 1 else m.reductions)
  }

  /** The routes, warnings and reduction counter after the first n commands. */
  function MapCommands(tileCount: nat, bytes: TensorBytes, cmds: seq<Command>, n: nat): Mapped
    requires n <= |cmds|
  {
    if n == 0 then Mapped([], [], 0) else StepMap(tileCount, bytes, MapCommands(tileCount, bytes, cmds, n - 1), cmds[n - 1])
  }

  /** One round of the mapping loop. */
  method MapCommand(b: RouteBuilder, bytes: TensorBytes, c: Command, reductions: nat, ghost m: Mapped) returns (count: nat)
    requires b.Valid() && m == Mapped(b.routes, b.warnings, reductions)
    modifies b
    ensures b.Valid()
    ensures Mapped(b.routes, b.warnings, count) == StepMap(b.tileCount, bytes, m, c)
  {
    hide RouteBuilder.Valid;
    hide Completed;
    hide KnownPayload;
    hide BehaviorFor;
    hide ControlAckDraft;
    hide TraceDraft;
    hide BarrierDraft;
    hide OtherTiles;
    count := reductions;
    if LocalOnly(c.commandType) {
      return;
    }
    if c.commandType.ValidateTensor? || c.commandType.QueryCounters? {
      b.AddControlAck(c.tileId, c.commandId, c.fenceId);
    } else if c.commandType.TileBarrier? {
      b.AddTileBarrier(c.tileId, c.commandId, c.fenceId);
    } else if c.commandType.TraceSnapshot? {
      b.AddTraceEvent(c.tileId, c.commandId, c.fenceId);
    } else if c.commandType.FabricSend? {
      MapSend(b, bytes, c);
    } else if c.commandType.FabricReduce? {
      count := MapReduce(b, bytes, c, reductions);
    } else {
      b.Warn(Unrecognized(c.commandId));
    }
  }

  method MapSend(b: RouteBuilder, bytes: TensorBytes, c: Command)
    requires b.Valid() && c.commandType.FabricSend?
    modifies b
    ensures b.Valid()
    ensures forall n: nat :: Mapped(b.routes, b.warnings, n) == StepMap(b.tileCount, bytes, Mapped(old(b.routes), old(b.warnings), n), c)
  {
    hide RouteBuilder.Valid;
    hide Completed;
    hide KnownPayload;
    hide OtherTiles;
    if KnownPayload(bytes, c) == 0 {
      b.Warn(PayloadUnknown(c.commandId));
    }
    if OtherTiles(b.tileCount, c.tileId) == [] {
      b.Warn(RouteOmitted(c.commandId));
    } else {
      b.AddActivationSend(SendDraft(b.tileCount, c.tileId, c.commandId, c.fenceId, c.tensorName, Payload(bytes, c)));
    }
  }

  method MapReduce(b: RouteBuilder, bytes: TensorBytes, c: Command, reductions: nat) returns (count: nat)
    requires b.Valid() && c.commandType.FabricReduce?
    modifies b
    ensures b.Valid()
    ensures Mapped(b.routes, b.warnings, count)
         == StepMap(b.tileCount, bytes, Mapped(old(b.routes), old(b.warnings), reductions), c)
  {
    hide RouteBuilder.Valid;
    hide Completed;
    hide KnownPayload;
    hide BehaviorFor;
    hide OtherTiles;
    count := reductions;
    if KnownPayload(bytes, c) == 0 {
      b.Warn(PayloadUnknown(c.commandId));
    }
    if OtherTiles(b.tileCount, c.tileId) == [] {
      b.Warn(RouteOmitted(c.commandId));
    } else {
      count := reductions + 1;
      b.AddPartialReduce(ReduceDraft(b.tileCount, c.tileId, c.commandId, c.fenceId, c.tensorName, Payload(bytes, c),
                                     count, BehaviorFor(c.notes)));
    }
  }

  /** `_map_plan_to_routes`: the builder ends with exactly the specified routes and its counters intact. */
  method MapPlanToRoutes(tileCount: nat, cmds: seq<Command>, bytes: TensorBytes) returns (b: RouteBuilder)
    ensures fresh(b) && b.Valid() && b.tileCount == tileCount
    ensures b.routes == MapCommands(tileCount, bytes, cmds, |cmds|).routes
    ensures b.warnings == MapCommands(tileCount, bytes, cmds, |cmds|).warnings
  {
    b := new RouteBuilder(tileCount);
    hide RouteBuilder.Valid;
    hide StepMap;
    var reductionCounter := 0;
    for i := 0 to |cmds|
      invariant b.Valid() && fresh(b)
      invariant Mapped(b.routes, b.warnings, reductionCounter) == MapCommands(tileCount, bytes, cmds, i)
    {
      reductionCounter := MapCommand(b, bytes, cmds[i], reductionCounter, MapCommands(tileCount, bytes, cmds, i));
    }
  }

  // ----------------------------------------------------------------- report

  datatype ReportStatus = Pass | WarnStatus | Fail | OtherReport(name: string)

  datatype ReportHeader = ReportHeader(version: int, tileCount: int, routeCount: int, packetEstimate: int, payloadEstimate: int, status: ReportStatus)

  datatype Report = Report(header: ReportHeader, routes: seq<Route>, tiles: seq<TileSummary>)

  /** `_assemble_report` on what the builder holds. */
  function Assembled(tileCount: nat, routes: seq<Route>, warned: bool, strict: bool): Report {
    Report(ReportHeader(1, tileCount, |routes|, Total(routes, PacketsOf), Total(routes, PayloadOf),
                        if warned && strict then Fail else if warned then WarnStatus else Pass),
           routes, Summaries(routes, tileCount))
  }

  method AssembleReport(b: RouteBuilder, planWarnings: seq<PlanWarning>, strict: bool) returns (r: Report)
    requires b.Valid()
    ensures r == Assembled(b.tileCount, b.routes, |planWarnings| + |b.warnings| > 0, strict)
  {
    var tiles := b.TileSummaries();
    var warned := |planWarnings| + |b.warnings| > 0;
    r := Report(ReportHeader(1, b.tileCount, |b.routes|, Total(b.routes, PacketsOf), Total(b.routes, PayloadOf),
                             if warned && strict then Fail else if warned then WarnStatus else Pass),
                b.routes, tiles);
  }

  /** What the mapper's main makes of a plan: no report when the check fails or a strict run warns. */
  function MapPlan(p: Plan, bytes: TensorBytes, strict: bool): Result<Report> {
    match MapperCheck(p, strict)
    case Err(e) => Err(e)
    case Ok(ws) =>
      var m := MapCommands(TilesOf(p), bytes, p.commands, |p.commands|);
      if strict && |ws| + |m.warnings| > 0 then Err("--strict: warnings produced")
      else Ok(Assembled(TilesOf(p), m.routes, |ws| + |m.warnings| > 0, strict))
  }

  function TilesOf(p: Plan): nat {
    if p.header.tileCount < 0 then 0 else p.header.tileCount
  }

  method MapPlanToReport(p: Plan, bytes: TensorBytes, strict: bool) returns (r: Result<Report>)
    ensures r == MapPlan(p, bytes, strict)
  {
    var checked := MapperValidatePlan(p, strict);
    if checked.Err? {
      return Err(checked.error);
    }
    var b := MapPlanToRoutes(TilesOf(p), p.commands, bytes);
    if strict && |checked.value| + |b.warnings| > 0 {
      return Err("--strict: warnings produced");
    }
    var report := AssembleReport(b, checked.value, strict);
    r := Ok(report);
  }
}
