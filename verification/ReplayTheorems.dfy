module ReplayTheorems {
  // What replay's independently kept counters have to do with the builder's, and that listing order is immaterial.

  import opened Common
  import opened Tally
  import opened Routes
  import opened RouteBuilding
  import opened RouteTheorems
  import opened RouteReplay

  // ------------------------------------------------------ order independence

  lemma {:induction false} TrafficPermuted(a: seq<Route>, b: seq<Route>, t: int, w: Route -> int)
    requires multiset(a) == multiset(b)
    ensures Sent(a, t, w) == Sent(b, t, w) && Received(a, t, w) == Received(b, t, w)
  {
    TotalPermuted(a, b, SentBy(t, w));
    TotalPermuted(a, b, ReceivedBy(t, w));
  }

  lemma {:induction false} CompletePermuted(a: seq<Route>, b: seq<Route>, id: int)
    requires multiset(a) == multiset(b) && IsComplete(a, id)
    ensures IsComplete(b, id)
  {
    var i :| 0 <= i < |a| && a[i].routeType.Reduces() && a[i].reductionId == id && a[i].behavior.Explicit();
    assert a[i] in multiset(b);
    var j :| 0 <= j < |b| && b[j] == a[i];
  }

  lemma {:induction false} CompleteIdsPermuted(a: seq<Route>, b: seq<Route>)
    requires multiset(a) == multiset(b)
    ensures CompleteIds(a) == CompleteIds(b)
  {
    hide IsComplete;
    forall id
      ensures id in CompleteIds(a) <==> id in CompleteIds(b)
    {
      if IsComplete(a, id) {
        CompletePermuted(a, b, id);
      }
      if IsComplete(b, id) {
        CompletePermuted(b, a, id);
      }
    }
  }

  lemma {:induction false} FinalPermuted(a: seq<Route>, b: seq<Route>, t: int, strict: bool)
    requires multiset(a) == multiset(b)
    ensures Final(a, t, strict) == Final(b, t, strict)
  {
    hide Sent;
    hide Received;
    CompleteIdsPermuted(a, b);
    TrafficPermuted(a, b, t, EffectivePackets);
    TrafficPermuted(a, b, t, PayloadOf);
    TrafficPermuted(a, b, t, ReductionsOf);
    TrafficPermuted(a, b, t, BarriersOf);
    TrafficPermuted(a, b, t, TracesOf);
    TrafficPermuted(a, b, t, FailuresOf(strict));
    TrafficPermuted(a, b, t, CompletionsOf(CompleteIds(a)));
  }

  ghost predicate IdsDistinct(rs: seq<Route>) {
    forall i, j :: 0 <= i < j < |rs| ==> rs[i].routeId != rs[j].routeId
  }

  lemma {:induction false} DistinctKeys(rs: seq<Route>)
    requires IdsDistinct(rs)
    ensures KeysDistinct(Sort(rs, RouteOrder()), RouteOrder())
  {
    var s := Sort(rs, RouteOrder());
    SortPermutes(rs, RouteOrder());
    forall i, j | 0 <= i < |s| && 0 <= j < |s| && RouteOrder()(s[i], s[j]) && RouteOrder()(s[j], s[i])
      ensures s[i] == s[j]
    {
      assert s[i] in multiset(rs) && s[j] in multiset(rs);
      var k :| 0 <= k < |rs| && rs[k] == s[i];
      var l :| 0 <= l < |rs| && rs[l] == s[j];
    }
  }

  lemma {:induction false} RouteOrderIsTotal()
    ensures TotalOrder(RouteOrder())
  {
  }

  /** The counters never depend on the order routes are listed in; with distinct ids nothing else does. */
  lemma {:induction false} ReplayOrderIndependent(a: seq<Route>, b: seq<Route>, tileCount: nat, strict: bool)
    requires multiset(a) == multiset(b)
    ensures Replay(a, tileCount, strict).counters == Replay(b, tileCount, strict).counters
    ensures IdsDistinct(a) ==> Replay(a, tileCount, strict) == Replay(b, tileCount, strict)
  {
    var x, y := Sort(a, RouteOrder()), Sort(b, RouteOrder());
    SortPermutes(a, RouteOrder());
    SortPermutes(b, RouteOrder());
    RouteOrderIsTotal();
    SortOrders(a, RouteOrder());
    SortOrders(b, RouteOrder());
    hide *;
    CountersPermuted(x, y, tileCount, strict);
    if IdsDistinct(a) {
      DistinctKeys(a);
      OrderedUnique(x, y, RouteOrder());
    }
    ReplayUnfolds(a, tileCount, strict);
    ReplayUnfolds(b, tileCount, strict);
  }

  lemma {:induction false} ReplayUnfolds(rs: seq<Route>, tileCount: nat, strict: bool)
    ensures Replay(rs, tileCount, strict)
         == Outcome(Sort(rs, RouteOrder()), FinalCounters(Sort(rs, RouteOrder()), tileCount, strict), FailedIds(Sort(rs, RouteOrder()), strict))
  {
    hide Sort;
    hide FinalCounters;
    hide FailedIds;
  }

  lemma {:induction false} CountersPermuted(x: seq<Route>, y: seq<Route>, tileCount: nat, strict: bool)
    requires multiset(x) == multiset(y)
    ensures FinalCounters(x, tileCount, strict) == FinalCounters(y, tileCount, strict)
  {
    hide Final;
    forall t | 0 <= t < tileCount
      ensures Final(x, t, strict) == Final(y, t, strict)
    {
      FinalPermuted(x, y, t, strict);
    }
  }

  lemma {:induction false} ReplayCounters(rs: seq<Route>, tileCount: nat, strict: bool, t: nat)
    requires t < tileCount
    ensures Replay(rs, tileCount, strict).counters[t] == Final(rs, t, strict)
  {
    SortPermutes(rs, RouteOrder());
    FinalPermuted(Sort(rs, RouteOrder()), rs, t, strict);
    hide Final;
    hide Sort;
    hide FailedIds;
  }

  // ----------------------------------------------------- sums over the tiles

  /** What the tiles below n send together. */
  function SumTiles(rs: seq<Route>, n: nat, w: Route -> int): int {
    if n == 0 then 0 else SumTiles(rs, n - 1, w) + Sent(rs, n - 1, w)
  }

  ghost predicate SourcesBelow(rs: seq<Route>, n: nat) {
    forall i :: 0 <= i < |rs| ==> 0 <= rs[i].sourceTile < n
  }

  function SentBelow(n: nat, w: Route -> int): Route -> int {
    (r: Route) => if 0 <= r.sourceTile < n then w(r) else 0
  }

  lemma {:induction false} SumTilesIs(rs: seq<Route>, n: nat, w: Route -> int)
    ensures SumTiles(rs, n, w) == Total(rs, SentBelow(n, w))
  {
    if n == 0 {
      TotalZero(rs, SentBelow(0, w));
    } else {
      SumTilesIs(rs, n - 1, w);
      TotalAdd(rs, SentBelow(n - 1, w), SentBy(n - 1, w), SentBelow(n, w));
    }
  }

  /** Every route is sent by exactly one tile, so the tiles together send everything. */
  lemma {:induction false} Conservation(rs: seq<Route>, n: nat, w: Route -> int)
    requires SourcesBelow(rs, n)
    ensures SumTiles(rs, n, w) == Total(rs, w)
  {
    SumTilesIs(rs, n, w);
    TotalSame(rs, SentBelow(n, w), w);
  }

  lemma {:induction false} SumOfEqual(rs: seq<Route>, n: nat, w: Route -> int, k: int, x: int)
    requires forall t :: 0 <= t < n ==> k * Sent(rs, t, w) == x
    ensures k * SumTiles(rs, n, w) == n * x
  {
    if n > 0 {
      SumOfEqual(rs, n - 1, w, k, x);
      calc {
        k * SumTiles(rs, n, w);
        k * (SumTiles(rs, n - 1, w) + Sent(rs, n - 1, w));
        k * SumTiles(rs, n - 1, w) + k * Sent(rs, n - 1, w);
        (n - 1) * x + x;
        n * x;
      }
    }
  }

  // ------------------------------------------- replay against the builder

  lemma {:induction false} MapperSources(rs: seq<Route>, tileCount: nat)
    requires MapperRoutes(rs, tileCount)
    ensures SourcesBelow(rs, tileCount)
    ensures forall i :: 0 <= i < |rs| ==> ReductionsOf(rs[i]) == PartialReductionsOf(rs[i]) && !Fails(rs[i], true)
    ensures forall i :: 0 <= i < |rs| ==> (EffectivePackets(rs[i]) == rs[i].packetCount <==> rs[i].payloadBytes >= 0)
    ensures forall i :: 0 <= i < |rs| ==> EffectivePackets(rs[i]) >= rs[i].packetCount
  {
    forall i | 0 <= i < |rs|
      ensures ReductionsOf(rs[i]) == PartialReductionsOf(rs[i]) && !Fails(rs[i], true) && 0 <= rs[i].sourceTile < tileCount
      ensures (EffectivePackets(rs[i]) == rs[i].packetCount <==> rs[i].payloadBytes >= 0) && EffectivePackets(rs[i]) >= rs[i].packetCount
    {
      assert MapperRoute(rs[i], tileCount);
    }
  }

  /** On mapper routes, replay and builder agree on bytes and on reductions started, and nothing fails. */
  lemma {:induction false} BytesAgree(rs: seq<Route>, tileCount: nat, strict: bool, t: nat)
    requires MapperRoutes(rs, tileCount) && t < tileCount
    ensures var c, s := Replay(rs, tileCount, strict).counters[t], SummaryOf(rs, t);
            && c.bytesSent == s.outBytes && c.bytesReceived == s.inBytes
            && c.reductionsStarted == s.reductionsStarted && c.routeFailures == s.routeFailures
  {
    MapperSources(rs, tileCount);
    ReplayCounters(rs, tileCount, strict, t);
    TotalSame(rs, SentBy(t, ReductionsOf), SentBy(t, PartialReductionsOf));
    TotalZero(rs, SentBy(t, FailuresOf(strict)));
    hide Replay;
    hide Total;
    hide CompleteIds;
    hide MapperRoutes;
  }

  ghost predicate PacketsAgree(rs: seq<Route>, tileCount: nat, strict: bool) {
    forall t :: 0 <= t < tileCount ==>
      var c, s := Replay(rs, tileCount, strict).counters[t], SummaryOf(rs, t);
      c.packetsSent == s.outPackets && c.packetsReceived == s.inPackets
  }

  lemma {:induction false} ReceivedSame(rs: seq<Route>, t: int, f: Route -> int, g: Route -> int)
    requires forall i :: 0 <= i < |rs| ==> f(rs[i]) == g(rs[i])
    ensures Sent(rs, t, f) == Sent(rs, t, g) && Received(rs, t, f) == Received(rs, t, g)
  {
    TotalSame(rs, SentBy(t, f), SentBy(t, g));
    TotalSame(rs, ReceivedBy(t, f), ReceivedBy(t, g));
  }

  /** Somewhere a strictly smaller weight makes the total strictly smaller. */
  lemma {:induction false} TotalStrict(rs: seq<Route>, f: Route -> int, g: Route -> int, i: nat)
    requires i < |rs| && f(rs[i]) < g(rs[i])
    requires forall k :: 0 <= k < |rs| ==> f(rs[k]) <= g(rs[k])
    ensures Total(rs, f) < Total(rs, g)
  {
    TotalWithout(rs, i, f);
    TotalWithout(rs, i, g);
    TotalMonotone(Without(rs, i), f, g);
  }

  lemma {:induction false} ReplayPackets(rs: seq<Route>, tileCount: nat, strict: bool)
    ensures PacketsAgree(rs, tileCount, strict) <==> SamePackets(rs, tileCount)
  {
    hide Replay;
    forall t | 0 <= t < tileCount
      ensures var c, s := Replay(rs, tileCount, strict).counters[t], SummaryOf(rs, t);
              && c.packetsSent == Sent(rs, t, EffectivePackets) && c.packetsReceived == Received(rs, t, EffectivePackets)
              && s.outPackets == Sent(rs, t, PacketsOf) && s.inPackets == Received(rs, t, PacketsOf)
    {
      ReplayCounters(rs, tileCount, strict, t);
    }
    hide Sent;
    hide Received;
    hide SummaryOf;
  }

  ghost predicate SamePackets(rs: seq<Route>, tileCount: nat) {
    forall t :: 0 <= t < tileCount ==>
      Sent(rs, t, EffectivePackets) == Sent(rs, t, PacketsOf) && Received(rs, t, EffectivePackets) == Received(rs, t, PacketsOf)
  }

  lemma {:induction false} NegativeDiffers(rs: seq<Route>, i: nat)
    requires i < |rs| && EffectivePackets(rs[i]) > rs[i].packetCount
    requires forall k :: 0 <= k < |rs| ==> EffectivePackets(rs[k]) >= rs[k].packetCount
    ensures Sent(rs, rs[i].sourceTile, PacketsOf) < Sent(rs, rs[i].sourceTile, EffectivePackets)
  {
    var t := rs[i].sourceTile;
    TotalStrict(rs, SentBy(t, PacketsOf), SentBy(t, EffectivePackets), i);
  }

  /** The packet counters agree on every tile exactly when no route has a negative size: a route without
      packets is still one packet to replay, unless it is a barrier. */
  lemma {:induction false} PacketsAgreeIff(rs: seq<Route>, tileCount: nat, strict: bool)
    requires MapperRoutes(rs, tileCount)
    ensures PacketsAgree(rs, tileCount, strict) <==> NonNegative(rs)
  {
    MapperSources(rs, tileCount);
    ReplayPackets(rs, tileCount, strict);
    hide MapperRoutes;
    hide EffectivePackets;
    hide PacketsAgree;
    hide Sent;
    hide Received;
    if NonNegative(rs) {
      forall t | 0 <= t < tileCount
        ensures Sent(rs, t, EffectivePackets) == Sent(rs, t, PacketsOf) && Received(rs, t, EffectivePackets) == Received(rs, t, PacketsOf)
      {
        ReceivedSame(rs, t, EffectivePackets, PacketsOf);
      }
    } else {
      var i :| 0 <= i < |rs| && rs[i].payloadBytes < 0;
      NegativeDiffers(rs, i);
    }
  }

  ghost predicate BarriersAgree(rs: seq<Route>, tileCount: nat, strict: bool) {
    forall t :: 0 <= t < tileCount ==>
      var c, s := Replay(rs, tileCount, strict).counters[t], SummaryOf(rs, t);
      c.barriersStarted == s.barriersStarted && c.barriersCompleted == s.barriersCompleted
  }

  lemma {:induction false} AllSendEverything(rs: seq<Route>, n: nat, w: Route -> int)
    requires n > 0 && SourcesBelow(rs, n) && forall i :: 0 <= i < |rs| ==> w(rs[i]) >= 0
    ensures (forall t :: 0 <= t < n ==> Sent(rs, t, w) == Total(rs, w)) <==> n == 1 || Total(rs, w) == 0
  {
    Conservation(rs, n, w);
    TotalNonNegative(rs, w);
    hide Sent;
    hide Total;
    if forall t :: 0 <= t < n ==> Sent(rs, t, w) == Total(rs, w) {
      forall t | 0 <= t < n
        ensures 1 * Sent(rs, t, w) == Total(rs, w)
      {
      }
      SumOfEqual(rs, n, w, 1, Total(rs, w));
      TimesIs(n, Total(rs, w));
    } else if n == 1 {
      assert SumTiles(rs, 1, w) == SumTiles(rs, 0, w) + Sent(rs, 0, w);
    } else if Total(rs, w) == 0 {
      SentZero(rs, n, w);
    }
  }

  /** The builder credits a barrier to every tile, replay to its source: they agree exactly when there is
      only one tile or no barrier. */
  lemma {:induction false} BarriersAgreeIff(rs: seq<Route>, tileCount: nat, strict: bool)
    requires MapperRoutes(rs, tileCount) && tileCount > 0
    ensures BarriersAgree(rs, tileCount, strict) <==> tileCount == 1 || Total(rs, BarriersOf) == 0
  {
    MapperSources(rs, tileCount);
    AllSendEverything(rs, tileCount, BarriersOf);
    hide Replay;
    hide MapperRoutes;
    forall t | 0 <= t < tileCount
      ensures var c, s := Replay(rs, tileCount, strict).counters[t], SummaryOf(rs, t);
              && c.barriersStarted == c.barriersCompleted == Sent(rs, t, BarriersOf)
              && s.barriersStarted == s.barriersCompleted == Total(rs, BarriersOf)
    {
      ReplayCounters(rs, tileCount, strict, t);
    }
    hide Sent;
    hide Total;
    hide SummaryOf;
    if BarriersAgree(rs, tileCount, strict) {
      forall t | 0 <= t < tileCount
        ensures Sent(rs, t, BarriersOf) == Total(rs, BarriersOf)
      {
        assert Replay(rs, tileCount, strict).counters[t].barriersStarted == SummaryOf(rs, t).barriersStarted;
      }
    }
  }

  lemma {:induction false} TimesIs(n: nat, b: int)
    requires n * b == b && b >= 0 && n > 0
    ensures n == 1 || b == 0
  {
    if n > 1 && b > 0 {
      MulMonotone(2, n, b);
    }
  }

  lemma {:induction false} SentZero(rs: seq<Route>, n: nat, w: Route -> int)
    requires Total(rs, w) == 0 && forall i :: 0 <= i < |rs| ==> w(rs[i]) >= 0
    ensures forall t :: 0 <= t < n ==> Sent(rs, t, w) == 0
  {
    forall t | 0 <= t < n
      ensures Sent(rs, t, w) == 0
    {
      TrafficNonNegative(rs, t, w);
      TotalMonotone(rs, SentBy(t, w), w);
    }
  }

  ghost predicate ReductionsAgree(rs: seq<Route>, tileCount: nat, strict: bool) {
    forall t :: 0 <= t < tileCount ==>
      Replay(rs, tileCount, strict).counters[t].reductionsCompleted == SummaryOf(rs, t).reductionsCompleted
  }

  /** Every reduction a mapper route starts counts as complete, and reaches every tile but its source. */
  lemma {:induction false} MapperReduction(rs: seq<Route>, tileCount: nat, i: nat, t: nat)
    requires MapperRoutes(rs, tileCount) && i < |rs| && t < tileCount
    ensures CompletionsOf(CompleteIds(rs))(rs[i]) == PartialReductionsOf(rs[i])
    ensures Hits(rs[i].destinationTiles, t, PartialReductionsOf(rs[i])) == if rs[i].sourceTile == t then 0 else PartialReductionsOf(rs[i])
  {
    assert MapperRoute(rs[i], tileCount);
    if rs[i].routeType.PartialReduce? {
      assert IsComplete(rs, rs[i].reductionId);
      assert rs[i].reductionId in CompleteIds(rs);
      HitsOnce(rs[i].destinationTiles, t, 1);
    } else {
      HitsZero(rs[i].destinationTiles, t);
    }
  }

  lemma {:induction false} MapperCompletes(rs: seq<Route>, tileCount: nat, t: nat)
    requires MapperRoutes(rs, tileCount) && t < tileCount
    ensures Sent(rs, t, CompletionsOf(CompleteIds(rs))) == Sent(rs, t, PartialReductionsOf)
    ensures Received(rs, t, PartialReductionsOf) == Total(rs, PartialReductionsOf) - Sent(rs, t, PartialReductionsOf)
  {
    hide MapperRoutes;
    hide CompleteIds;
    hide CompletionsOf;
    hide PartialReductionsOf;
    forall i | 0 <= i < |rs|
      ensures CompletionsOf(CompleteIds(rs))(rs[i]) == PartialReductionsOf(rs[i])
      ensures Hits(rs[i].destinationTiles, t, PartialReductionsOf(rs[i])) == if rs[i].sourceTile == t then 0 else PartialReductionsOf(rs[i])
    {
      MapperReduction(rs, tileCount, i, t);
    }
    ReceivedSame(rs, t, CompletionsOf(CompleteIds(rs)), PartialReductionsOf);
    TotalAdd(rs, SentBy(t, PartialReductionsOf), ReceivedBy(t, PartialReductionsOf), PartialReductionsOf);
  }

  lemma {:induction false} TwiceIs(n: nat, r: int)
    requires n * r == 2 * r && r >= 0
    ensures n == 2 || r == 0
  {
    if r > 0 && n > 2 {
      MulMonotone(3, n, r);
    } else if r > 0 && n < 2 {
      MulMonotone(n, 1, r);
    }
  }

  lemma {:induction false} AllSendHalf(rs: seq<Route>, n: nat, w: Route -> int)
    requires n > 0 && SourcesBelow(rs, n) && forall i :: 0 <= i < |rs| ==> w(rs[i]) >= 0
    ensures (forall t :: 0 <= t < n ==> 2 * Sent(rs, t, w) == Total(rs, w))
       <==> Total(rs, w) == 0 || (n == 2 && Sent(rs, 0, w) == Sent(rs, 1, w))
  {
    Conservation(rs, n, w);
    TotalNonNegative(rs, w);
    TwoTiles(rs, w);
    hide Sent;
    hide Total;
    if forall t :: 0 <= t < n ==> 2 * Sent(rs, t, w) == Total(rs, w) {
      SumOfEqual(rs, n, w, 2, Total(rs, w));
      TwiceIs(n, Total(rs, w));
    } else if Total(rs, w) == 0 {
      SentZero(rs, n, w);
    }
  }

  /** The builder completes a reduction at its destinations, replay at its source: they agree exactly when
      nothing is reduced, or when two tiles start equally many reductions. */
  lemma {:induction false} ReductionsAgreeIff(rs: seq<Route>, tileCount: nat, strict: bool)
    requires MapperRoutes(rs, tileCount) && tileCount > 0
    ensures ReductionsAgree(rs, tileCount, strict) <==>
      Total(rs, PartialReductionsOf) == 0
      || (tileCount == 2 && Sent(rs, 0, PartialReductionsOf) == Sent(rs, 1, PartialReductionsOf))
  {
    MapperSources(rs, tileCount);
    AllSendHalf(rs, tileCount, PartialReductionsOf);
    hide Replay;
    hide MapperRoutes;
    hide CompleteIds;
    hide Total;
    forall t | 0 <= t < tileCount
      ensures Replay(rs, tileCount, strict).counters[t].reductionsCompleted == Sent(rs, t, PartialReductionsOf)
      ensures SummaryOf(rs, t).reductionsCompleted == Total(rs, PartialReductionsOf) - Sent(rs, t, PartialReductionsOf)
    {
      ReplayCounters(rs, tileCount, strict, t);
      MapperCompletes(rs, tileCount, t);
    }
    hide Sent;
    hide SummaryOf;
    if ReductionsAgree(rs, tileCount, strict) {
      forall t | 0 <= t < tileCount
        ensures 2 * Sent(rs, t, PartialReductionsOf) == Total(rs, PartialReductionsOf)
      {
        assert Replay(rs, tileCount, strict).counters[t].reductionsCompleted == SummaryOf(rs, t).reductionsCompleted;
      }
    }
  }

  lemma {:induction false} TwoTiles(rs: seq<Route>, w: Route -> int)
    ensures SumTiles(rs, 2, w) == Sent(rs, 0, w) + Sent(rs, 1, w)
  {
    hide Sent;
    assert SumTiles(rs, 1, w) == SumTiles(rs, 0, w) + Sent(rs, 0, w);
  }
}
