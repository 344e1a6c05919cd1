/** The fabric route replay: per-tile counters kept in mutable records while routes run in id order. */
module RouteReplay {
  import opened Common
  import opened Tally
  import opened Routes

  /** Packets as replay and bandwidth model count them: a barrier carries none, anything else at least one. */
  function EffectivePackets(r: Route): int {
    if r.routeType.BarrierRoute? then 0 else if r.packetCount > 0 then r.packetCount else 1
  }

  function ReductionsOf(r: Route): int {
    if r.routeType.Reduces() then 1 else 0
  }

  function TracesOf(r: Route): int {
    if r.routeType.TraceEvent? then 1 else 0
  }

  predicate Fails(r: Route, strict: bool) {
    r.status.Failed? || r.status.OtherStatus? || (strict && r.status.Suspect?)
  }

  function FailuresOf(strict: bool): Route -> int {
    (r: Route) => if Fails(r, strict) then 1 else 0
  }

  datatype Counters = Counters(
    packetsSent: int, packetsReceived: int, bytesSent: int, bytesReceived: int,
    reductionsStarted: int, reductionsCompleted: int, barriersStarted: int, barriersCompleted: int,
    traceEvents: int, routeFailures: int)

  class TileReplayCounters {
    var packetsSent: int
    var packetsReceived: int
    var bytesSent: int
    var bytesReceived: int
    var reductionsStarted: int
    var reductionsCompleted: int
    var barriersStarted: int
    var barriersCompleted: int
    var traceEvents: int
    var routeFailures: int

    constructor ()
      ensures View() == Counters(0, 0, 0, 0, 0, 0, 0, 0, 0, 0)
    {
      packetsSent, packetsReceived, bytesSent, bytesReceived := 0, 0, 0, 0;
      reductionsStarted, reductionsCompleted, barriersStarted, barriersCompleted := 0, 0, 0, 0;
      traceEvents, routeFailures := 0, 0;
    }

    function View(): Counters
      reads this
    {
      Counters(packetsSent, packetsReceived, bytesSent, bytesReceived, reductionsStarted, reductionsCompleted,
               barriersStarted, barriersCompleted, traceEvents, routeFailures)
    }

    /** The source tile's share of a route. */
    method Send(r: Route, strict: bool)
      modifies this
      ensures View() == AfterSend(old(View()), r, strict)
    {
      if Fails(r, strict) {
        routeFailures := routeFailures + 1;
      }
      packetsSent := packetsSent + EffectivePackets(r);
      bytesSent := bytesSent + r.payloadBytes;
      if r.routeType.BarrierRoute? {
        barriersStarted := barriersStarted + 1;
        barriersCompleted := barriersCompleted + 1;
      } else if r.routeType.TraceEvent? {
        traceEvents := traceEvents + 1;
      } else if r.routeType.Reduces() {
        reductionsStarted := reductionsStarted + 1;
      }
    }

    /** One delivery. */
    method Receive(packets: int, bytes: int)
      modifies this
      ensures View() == AfterReceive(old(View()), packets, bytes)
    {
      packetsReceived := packetsReceived + packets;
      bytesReceived := bytesReceived + bytes;
    }

    method CompleteReduction()
      modifies `reductionsCompleted
      ensures View() == old(View()).(reductionsCompleted := old(View()).reductionsCompleted + 1)
    {
      reductionsCompleted := reductionsCompleted + 1;
    }
  }

  function AfterSend(c: Counters, r: Route, strict: bool): Counters {
    c.(routeFailures := c.routeFailures + FailuresOf(strict)(r),
       packetsSent := c.packetsSent + EffectivePackets(r), bytesSent := c.bytesSent + r.payloadBytes,
       barriersStarted := c.barriersStarted + BarriersOf(r), barriersCompleted := c.barriersCompleted + BarriersOf(r),
       traceEvents := c.traceEvents + TracesOf(r), reductionsStarted := c.reductionsStarted + ReductionsOf(r))
  }

  function AfterReceive(c: Counters, packets: int, bytes: int): Counters {
    c.(packetsReceived := c.packetsReceived + packets, bytesReceived := c.bytesReceived + bytes)
  }

  // ------------------------------------------------------------- what it computes

  /** The counters of a tile after the routes have run and before reductions are closed. */
  function Running(rs: seq<Route>, t: int, strict: bool): Counters {
    Counters(Sent(rs, t, EffectivePackets), Received(rs, t, EffectivePackets), Sent(rs, t, PayloadOf), Received(rs, t, PayloadOf),
             Sent(rs, t, ReductionsOf), 0, Sent(rs, t, BarriersOf), Sent(rs, t, BarriersOf), Sent(rs, t, TracesOf),
             Sent(rs, t, FailuresOf(strict)))
  }

  /** A reduction id is complete when some reducing route that carries it has an explicit behavior. */
  predicate IsComplete(rs: seq<Route>, id: int) {
    exists i :: 0 <= i < |rs| && rs[i].routeType.Reduces() && rs[i].reductionId == id && rs[i].behavior.Explicit()
  }

  /** Reductions a route completes at its source, given the ids that are complete. */
  function CompletionsOf(ids: set<int>): Route -> int {
    (r: Route) => if r.routeType.Reduces() && r.reductionId in ids then 1 else 0
  }

  function CompleteIds(rs: seq<Route>): (ids: set<int>)
    ensures forall id :: id in ids <==> IsComplete(rs, id)
  {
    set i | 0 <= i < |rs| && rs[i].routeType.Reduces() && rs[i].behavior.Explicit() :: rs[i].reductionId
  }

  function Final(rs: seq<Route>, t: int, strict: bool): Counters {
    Running(rs, t, strict).(reductionsCompleted := Sent(rs, t, CompletionsOf(CompleteIds(rs))))
  }

  function RouteOrder(): (Route, Route) -> bool {
    (a: Route, b: Route) => a.routeId <= b.routeId
  }

  function FailedIds(rs: seq<Route>, strict: bool): seq<int> {
    if |rs| == 0 then []
    else FailedIds(rs[..|rs| - 1], strict) + if Fails(rs[|rs| - 1], strict) then [rs[|rs| - 1].routeId] else []
  }

  /** Replayed routes in order, the counters of every tile, and the ids noted as failed. */
  datatype Outcome = Outcome(replayed: seq<Route>, counters: seq<Counters>, notes: seq<int>)

  function FinalCounters(rs: seq<Route>, tileCount: nat, strict: bool): (cs: seq<Counters>)
    ensures |cs| == tileCount
  {
    seq(tileCount, t requires 0 <= t < tileCount => Final(rs, t, strict))
  }

  function Replay(rs: seq<Route>, tileCount: nat, strict: bool): (o: Outcome)
    ensures |o.counters| == tileCount
  {
    var order := Sort(rs, RouteOrder());
    Outcome(order, FinalCounters(order, tileCount, strict), FailedIds(order, strict))
  }

  // ------------------------------------------------------------- the program

  ghost predicate Distinct(ctrs: seq<TileReplayCounters>) {
    forall i, j :: 0 <= i < j < |ctrs| ==> ctrs[i] != ctrs[j]
  }

  /** Every tile's counters hold the running totals of rs. */
  ghost predicate Holds(ctrs: seq<TileReplayCounters>, rs: seq<Route>, strict: bool)
    reads ctrs
  {
    forall t :: 0 <= t < |ctrs| ==> ctrs[t].View() == Running(rs, t, strict)
  }

  lemma {:induction false} RunningStep(rs: seq<Route>, r: Route, t: int, strict: bool)
    ensures Running(rs + [r], t, strict)
         == AfterReceive(if t == r.sourceTile then AfterSend(Running(rs, t, strict), r, strict) else Running(rs, t, strict),
                         Hits(r.destinationTiles, t, EffectivePackets(r)), Hits(r.destinationTiles, t, r.payloadBytes))
  {
    TrafficSnoc(rs, r, t, EffectivePackets);
    TrafficSnoc(rs, r, t, PayloadOf);
    TrafficSnoc(rs, r, t, ReductionsOf);
    TrafficSnoc(rs, r, t, BarriersOf);
    TrafficSnoc(rs, r, t, TracesOf);
    TrafficSnoc(rs, r, t, FailuresOf(strict));
    hide Sent;
    hide Received;
    hide Hits;
    hide EffectivePackets;
    hide Fails;
  }

  /** The destination loop of one route. */
  method DeliverRoute(ctrs: seq<TileReplayCounters>, tiles: seq<int>, packets: int, bytes: int)
    requires Distinct(ctrs)
    modifies ctrs
    ensures forall t :: 0 <= t < |ctrs| ==>
      ctrs[t].View() == AfterReceive(old(ctrs[t].View()), Hits(tiles, t, packets), Hits(tiles, t, bytes))
  {
    hide TileReplayCounters.View;
    for i := 0 to |tiles|
      invariant forall t :: 0 <= t < |ctrs| ==>
        ctrs[t].View() == AfterReceive(old(ctrs[t].View()), Hits(tiles[..i], t, packets), Hits(tiles[..i], t, bytes))
    {
      assert tiles[..i + 1][..i] == tiles[..i];
      if 0 <= tiles[i] < |ctrs| {
        ctrs[tiles[i]].Receive(packets, bytes);
      }
    }
    assert tiles[..|tiles|] == tiles;
  }

  method ReplayRoute(ctrs: seq<TileReplayCounters>, r: Route, strict: bool, ghost before: seq<Route>)
    requires Distinct(ctrs) && Holds(ctrs, before, strict)
    modifies ctrs
    ensures Holds(ctrs, before + [r], strict)
  {
    hide TileReplayCounters.View;
    hide Running;
    hide AfterSend;
    hide AfterReceive;
    hide Hits;
    if 0 <= r.sourceTile < |ctrs| {
      ctrs[r.sourceTile].Send(r, strict);
    }
    label sent:
    DeliverRoute(ctrs, r.destinationTiles, EffectivePackets(r), r.payloadBytes);
    forall t | 0 <= t < |ctrs|
      ensures ctrs[t].View() == Running(before + [r], t, strict)
    {
      RunningStep(before, r, t, strict);
    }
  }

  /** Routes of a reduction group, in replay order. */
  function Group(rs: seq<Route>, id: int): seq<Route> {
    if |rs| == 0 then []
    else
      var r := rs[|rs| - 1];
      Group(rs[..|rs| - 1], id) + if r.routeType.Reduces() && r.reductionId == id then [r] else []
  }

  function InGroup(id: int): Route -> int {
    (r: Route) => if r.routeType.Reduces() && r.reductionId == id then 1 else 0
  }

  function One(r: Route): int {
    1
  }

  lemma {:induction false} GroupTotal(rs: seq<Route>, id: int, t: int)
    ensures Sent(Group(rs, id), t, One) == Sent(rs, t, InGroup(id))
  {
    if |rs| == 0 {
      assert Group(rs, id) == [];
    } else {
      hide *;
      var init, r := rs[..|rs| - 1], rs[|rs| - 1];
      GroupTotal(init, id, t);
      assert rs == init + [r];
      GroupSnoc(init, r, id);
      TrafficSnoc(init, r, t, InGroup(id));
      TrafficSnoc(Group(init, id), r, t, One);
    }
  }

  predicate HasExplicit(group: seq<Route>) {
    exists i :: 0 <= i < |group| && group[i].behavior.Explicit()
  }

  lemma {:induction false} HasExplicitSnoc(group: seq<Route>, r: Route)
    ensures HasExplicit(group + [r]) <==> HasExplicit(group) || r.behavior.Explicit()
  {
    var h := group + [r];
    if HasExplicit(group) {
      var i :| 0 <= i < |group| && group[i].behavior.Explicit();
      assert h[i] == group[i];
    }
    if r.behavior.Explicit() {
      assert h[|group|] == r;
    }
  }

  lemma {:induction false} CompleteSnoc(rs: seq<Route>, r: Route, id: int)
    ensures IsComplete(rs + [r], id) <==> IsComplete(rs, id) || (r.routeType.Reduces() && r.reductionId == id && r.behavior.Explicit())
  {
    var h := rs + [r];
    if IsComplete(rs, id) {
      var i :| 0 <= i < |rs| && rs[i].routeType.Reduces() && rs[i].reductionId == id && rs[i].behavior.Explicit();
      assert h[i] == rs[i];
    }
    assert h[|rs|] == r;
  }

  lemma {:induction false} GroupExplicit(rs: seq<Route>, id: int)
    ensures HasExplicit(Group(rs, id)) <==> IsComplete(rs, id)
  {
    if |rs| > 0 {
      var init, r := rs[..|rs| - 1], rs[|rs| - 1];
      GroupExplicit(init, id);
      assert rs == init + [r];
      CompleteSnoc(init, r, id);
      HasExplicitSnoc(Group(init, id), r);
      assert Group(init, id) + [] == Group(init, id);
      hide HasExplicit;
      hide IsComplete;
    }
  }

  /** The replayed reducing routes by id, with the ids in the order they first appeared. */
  ghost predicate Grouped(groups: map<int, seq<Route>>, order: seq<int>, rs: seq<Route>) {
    && (forall id :: id in groups <==> id in order)
    && (forall id :: id in groups ==> groups[id] == Group(rs, id))
    && (forall id :: id !in groups ==> Group(rs, id) == [])
    && NoRepeats(order)
  }

  lemma {:induction false} GroupSnoc(rs: seq<Route>, r: Route, id: int)
    ensures Group(rs + [r], id) == if r.routeType.Reduces() && r.reductionId == id then Group(rs, id) + [r] else Group(rs, id)
  {
    assert (rs + [r])[..|rs|] == rs;
  }

  method TrackReduction(groups: map<int, seq<Route>>, order: seq<int>, r: Route, ghost before: seq<Route>)
    returns (groups': map<int, seq<Route>>, order': seq<int>)
    requires Grouped(groups, order, before)
    ensures Grouped(groups', order', before + [r])
  {
    hide Grouped;
    groups', order' := groups, order;
    var id := r.reductionId;
    if r.routeType.Reduces() {
      if id in groups {
        groups' := groups[id := groups[id] + [r]];
        GroupedKnown(groups, order, r, before);
      } else {
        groups' := groups[id := [r]];
        order' := order + [id];
        GroupedNew(groups, order, r, before);
      }
    } else {
      GroupedOther(groups, order, r, before);
    }
  }

  lemma {:induction false} GroupsSnoc(before: seq<Route>, r: Route)
    ensures forall k: int ::
              Group(before + [r], k) == if r.routeType.Reduces() && r.reductionId == k then Group(before, k) + [r] else Group(before, k)
  {
    hide Group;
    forall k: int
      ensures Group(before + [r], k) == if r.routeType.Reduces() && r.reductionId == k then Group(before, k) + [r] else Group(before, k)
    {
      GroupSnoc(before, r, k);
    }
  }

  lemma {:induction false} GroupedKnown(groups: map<int, seq<Route>>, order: seq<int>, r: Route, before: seq<Route>)
    requires Grouped(groups, order, before) && r.routeType.Reduces() && r.reductionId in groups
    ensures Grouped(groups[r.reductionId := groups[r.reductionId] + [r]], order, before + [r])
  {
    hide Group;
    hide NoRepeats;
    GroupsSnoc(before, r);
  }

  lemma {:induction false} GroupedNew(groups: map<int, seq<Route>>, order: seq<int>, r: Route, before: seq<Route>)
    requires Grouped(groups, order, before) && r.routeType.Reduces() && r.reductionId !in groups
    ensures Grouped(groups[r.reductionId := [r]], order + [r.reductionId], before + [r])
  {
    hide Group;
    hide NoRepeats;
    GroupsSnoc(before, r);
    var id, order' := r.reductionId, order + [r.reductionId];
    SnocNoRepeats(order, id);
    assert Group(before, id) + [r] == [r];
    assert forall k :: k in order' <==> k in order || k == id;
    var groups' := groups[id := [r]];
    assert forall k :: k in groups' <==> k in groups || k == id;
  }

  lemma {:induction false} GroupedOther(groups: map<int, seq<Route>>, order: seq<int>, r: Route, before: seq<Route>)
    requires Grouped(groups, order, before) && !r.routeType.Reduces()
    ensures Grouped(groups, order, before + [r])
  {
    hide Group;
    hide NoRepeats;
    GroupsSnoc(before, r);
  }

  /** Credit each route of a complete group to its source. */
  method CompleteGroup(ctrs: seq<TileReplayCounters>, group: seq<Route>)
    requires Distinct(ctrs)
    modifies ctrs
    ensures forall t :: 0 <= t < |ctrs| ==>
      ctrs[t].View() == old(ctrs[t].View()).(reductionsCompleted := old(ctrs[t].View()).reductionsCompleted + Sent(group, t, One))
  {
    hide TileReplayCounters.View;
    hide Sent;
    assert group[..0] == [];
    EmptySent();
    for i := 0 to |group|
      invariant forall t :: 0 <= t < |ctrs| ==>
        ctrs[t].View() == old(ctrs[t].View()).(reductionsCompleted := old(ctrs[t].View()).reductionsCompleted + Sent(group[..i], t, One))
    {
      assert group[..i + 1] == group[..i] + [group[i]];
      forall t: int
        ensures Sent(group[..i + 1], t, One) == Sent(group[..i], t, One) + if group[i].sourceTile == t then 1 else 0
      {
        TrafficSnoc(group[..i], group[i], t, One);
      }
      var src := group[i].sourceTile;
      if 0 <= src < |ctrs| {
        ctrs[src].CompleteReduction();
      }
    }
    assert group[..|group|] == group;
  }

  lemma {:induction false} EmptySent()
    ensures forall t: int :: Sent([], t, One) == 0
  {
  }

  /** The ids among the first k that are complete. */
  function ClosedIds(rs: seq<Route>, order: seq<int>, k: nat): set<int>
    requires k <= |order|
  {
    set i | 0 <= i < k && IsComplete(rs, order[i]) :: order[i]
  }

  lemma {:induction false} ClosedStep(rs: seq<Route>, order: seq<int>, k: nat, t: int)
    requires k < |order| && NoRepeats(order)
    ensures Sent(rs, t, CompletionsOf(ClosedIds(rs, order, k + 1)))
         == Sent(rs, t, CompletionsOf(ClosedIds(rs, order, k))) + if IsComplete(rs, order[k]) then Sent(rs, t, InGroup(order[k])) else 0
  {
    hide IsComplete;
    var id, ids, ids' := order[k], ClosedIds(rs, order, k), ClosedIds(rs, order, k + 1);
    assert id !in ids;
    assert forall x :: x in ids' <==> x in ids || (x == id && IsComplete(rs, id));
    if IsComplete(rs, id) {
      TotalAdd(rs, SentBy(t, CompletionsOf(ids)), SentBy(t, InGroup(id)), SentBy(t, CompletionsOf(ids')));
    } else {
      assert ids' == ids;
    }
  }

  lemma {:induction false} ClosedAll(rs: seq<Route>, order: seq<int>)
    requires forall id :: IsComplete(rs, id) ==> id in order
    ensures ClosedIds(rs, order, |order|) == CompleteIds(rs)
  {
    hide IsComplete;
  }

  ghost predicate CompleteAppears(rs: seq<Route>, order: seq<int>) {
    forall id :: IsComplete(rs, id) ==> id in order
  }

  lemma {:induction false} CompleteIsGrouped(groups: map<int, seq<Route>>, order: seq<int>, rs: seq<Route>)
    requires Grouped(groups, order, rs)
    ensures CompleteAppears(rs, order)
  {
    hide Group;
    forall id | IsComplete(rs, id)
      ensures id in order
    {
      GroupExplicit(rs, id);
    }
  }

  /** Every tile's counters are the running totals plus the completions of the given ids. */
  ghost predicate HoldsClosed(ctrs: seq<TileReplayCounters>, rs: seq<Route>, ids: set<int>, strict: bool)
    reads ctrs
  {
    forall t :: 0 <= t < |ctrs| ==> ctrs[t].View() == Running(rs, t, strict).(reductionsCompleted := Sent(rs, t, CompletionsOf(ids)))
  }

  lemma {:induction false} NothingClosed(ctrs: seq<TileReplayCounters>, rs: seq<Route>, strict: bool)
    requires Holds(ctrs, rs, strict)
    ensures HoldsClosed(ctrs, rs, {}, strict)
  {
    forall t | 0 <= t < |ctrs|
      ensures Sent(rs, t, CompletionsOf({})) == 0
    {
      TotalZero(rs, SentBy(t, CompletionsOf({})));
    }
    hide TileReplayCounters.View;
    hide Sent;
    hide Received;
  }

  /** The two loops over the reduction groups, in one pass. */
  method CloseReductions(ctrs: seq<TileReplayCounters>, groups: map<int, seq<Route>>, order: seq<int>,
                         ghost rs: seq<Route>, ghost strict: bool)
    requires Distinct(ctrs) && Grouped(groups, order, rs) && Holds(ctrs, rs, strict)
    modifies ctrs
    ensures HoldsClosed(ctrs, rs, CompleteIds(rs), strict)
  {
    NothingClosed(ctrs, rs, strict);
    CompleteIsGrouped(groups, order, rs);
    ClosedAll(rs, order);
    assert ClosedIds(rs, order, 0) == {};
    hide ClosedIds;
    hide Holds;
    hide Group;
    for k := 0 to |order|
      invariant HoldsClosed(ctrs, rs, ClosedIds(rs, order, k), strict)
    {
      CloseGroup(ctrs, groups, order, rs, strict, k);
    }
  }

  method CloseGroup(ctrs: seq<TileReplayCounters>, groups: map<int, seq<Route>>, order: seq<int>,
                    ghost rs: seq<Route>, ghost strict: bool, k: nat)
    requires Distinct(ctrs) && Grouped(groups, order, rs) && k < |order|
    requires HoldsClosed(ctrs, rs, ClosedIds(rs, order, k), strict)
    modifies ctrs
    ensures HoldsClosed(ctrs, rs, ClosedIds(rs, order, k + 1), strict)
  {
    hide ClosedIds;
    hide Group;
    hide Sent;
    hide Running;
    hide TileReplayCounters.View;
    hide IsComplete;
    assert order[k] in groups by {
      assert order[k] in order;
    }
    var group := groups[order[k]];
    var hasExplicit := HasExplicit(group);
    GroupExplicit(rs, order[k]);
    if hasExplicit {
      CompleteGroup(ctrs, group);
    }
    forall t | 0 <= t < |ctrs|
      ensures Sent(rs, t, CompletionsOf(ClosedIds(rs, order, k + 1)))
           == Sent(rs, t, CompletionsOf(ClosedIds(rs, order, k))) + if hasExplicit then Sent(group, t, One) else 0
    {
      ClosedStep(rs, order, k, t);
      GroupTotal(rs, order[k], t);
    }
  }

  method FreshCounters(tileCount: nat) returns (ctrs: seq<TileReplayCounters>)
    ensures |ctrs| == tileCount && Distinct(ctrs) && fresh(ctrs)
    ensures forall strict :: Holds(ctrs, [], strict)
  {
    ctrs := [];
    for t := 0 to tileCount
      invariant |ctrs| == t && Distinct(ctrs) && fresh(ctrs)
      invariant forall i :: 0 <= i < t ==> ctrs[i].View() == Counters(0, 0, 0, 0, 0, 0, 0, 0, 0, 0)
    {
      var c := new TileReplayCounters();
      ctrs := ctrs + [c];
    }
  }

  /** `_replay_routes`. */
  method ReplayRoutes(rs: seq<Route>, tileCount: nat, strict: bool)
    returns (replayed: seq<Route>, ctrs: seq<TileReplayCounters>, notes: seq<int>)
    ensures fresh(ctrs) && |ctrs| == tileCount
    ensures replayed == Replay(rs, tileCount, strict).replayed && notes == Replay(rs, tileCount, strict).notes
    ensures forall t :: 0 <= t < tileCount ==> ctrs[t].View() == Replay(rs, tileCount, strict).counters[t]
  {
    replayed := Sort(rs, RouteOrder());
    ctrs := FreshCounters(tileCount);
    notes := [];
    var groups, order := map[], [];
    hide Holds;
    hide Grouped;
    hide Distinct;
    assert replayed[..0] == [];
    assert Grouped(groups, order, []) by {
      NothingGrouped();
    }
    for i := 0 to |replayed|
      invariant Distinct(ctrs) && Holds(ctrs, replayed[..i], strict) && fresh(ctrs)
      invariant Grouped(groups, order, replayed[..i])
      invariant notes == FailedIds(replayed[..i], strict)
    {
      var r := replayed[i];
      assert replayed[..i + 1] == replayed[..i] + [r] && replayed[..i + 1][..i] == replayed[..i];
      if Fails(r, strict) {
        notes := notes + [r.routeId];
      }
      ReplayRoute(ctrs, r, strict, replayed[..i]);
      groups, order := TrackReduction(groups, order, r, replayed[..i]);
    }
    assert replayed[..|replayed|] == replayed;
    CloseReductions(ctrs, groups, order, replayed, strict);
  }

  lemma {:induction false} NothingGrouped()
    ensures Grouped(map[], [], [])
  {
  }
}
