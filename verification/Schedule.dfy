module Schedule {
  // Layer-to-tile scheduling: the greedy ceiling-division assignment and its closed form.

  import opened Common

  /** Layers given to the next tile when `layers` layers and `tiles` tiles remain. */
  function GreedyCount(layers: nat, tiles: nat): nat
    requires tiles > 0
  {
    (layers + tiles - 1) / tiles
  }

  function Repeat(t: nat, count: nat): (s: seq<nat>)
    ensures |s| == count && forall i :: 0 <= i < count ==> s[i] == t
  {
    seq(count, i => t)
  }

  /** The assignment after the first k tiles have been served. */
  function Greedy(layers: nat, tiles: nat, k: nat): (a: seq<nat>)
    requires k <= tiles
    ensures |a| <= layers
  {
    if k == 0 then []
    else
      var before := Greedy(layers, tiles, k - 1);
      var count := GreedyCount(layers - |before|, tiles - (k - 1));
      GreedyCountFits(layers - |before|, tiles - (k - 1));
      before + Repeat(k - 1, count)
  }

  function Assignment(layers: nat, tiles: nat): seq<nat> {
    Greedy(layers, tiles, tiles)
  }

  lemma {:induction false} GreedyCountFits(layers: nat, tiles: nat)
    requires tiles > 0
    ensures GreedyCount(layers, tiles) <= layers
  {
    var n := layers + tiles - 1;
    if n / tiles > layers {
      MulMonotone(layers + 1, n / tiles, tiles);
      assert (layers + 1) * tiles == layers * tiles + tiles;
      MulMonotone(1, tiles, layers);
    }
  }

  /** `_layer_tile_assignment`. */
  method LayerTileAssignment(nLayers: nat, nTiles: nat) returns (assignment: seq<nat>)
    ensures assignment == Assignment(nLayers, nTiles)
  {
    assignment := [];
    var nextLayer := 0;
    for tile := 0 to nTiles
      invariant assignment == Greedy(nLayers, nTiles, tile) && nextLayer == |assignment|
    {
      var remainingLayers, remainingTiles := nLayers - nextLayer, nTiles - tile;
      var count := (remainingLayers + remainingTiles - 1) / remainingTiles;
      assignment := assignment + Repeat(tile, count);
      nextLayer := nextLayer + count;
    }
  }

  // ------------------------------------------------------------ closed form

  /** Every tile gets floor(L / T) layers and the first L mod T tiles get one more. */
  function BlockSize(layers: nat, tiles: nat, t: nat): nat
    requires tiles > 0
  {
    layers / tiles + if t < layers % tiles then 1 else 0
  }

  /** First layer of tile t. */
  function Start(layers: nat, tiles: nat, t: nat): nat
    requires tiles > 0
  {
    t * (layers / tiles) + if t < layers % tiles then t else layers % tiles
  }

  lemma {:induction false} StartStep(layers: nat, tiles: nat, t: nat)
    requires tiles > 0
    ensures Start(layers, tiles, t + 1) == Start(layers, tiles, t) + BlockSize(layers, tiles, t)
  {
    assert (t + 1) * (layers / tiles) == t * (layers / tiles) + layers / tiles;
  }

  lemma {:induction false} StartEnds(layers: nat, tiles: nat)
    requires tiles > 0
    ensures Start(layers, tiles, 0) == 0 && Start(layers, tiles, tiles) == layers
  {
  }

  /** Ceiling division of what is left hands tile t exactly its block. */
  lemma {:induction false} GreedyStep(layers: nat, tiles: nat, t: nat)
    requires t < tiles && Start(layers, tiles, t) <= layers
    ensures GreedyCount(layers - Start(layers, tiles, t), tiles - t) == BlockSize(layers, tiles, t)
  {
    var q, r, m := layers / tiles, layers % tiles, tiles - t;
    var left := if t < r then r - t else 0;
    assert layers == tiles * q + r;
    assert tiles * q == t * q + m * q;
    assert layers - Start(layers, tiles, t) == q * m + left;
    hide *;
    CeilingOf(q, left, m);
    DivModUnique(q * m + left + m - 1, m, if left > 0 then q + 1 else q, if left > 0 then left - 1 else m - 1);
  }

  lemma {:induction false} CeilingOf(q: nat, left: nat, m: nat)
    requires m > 0 && left <= m
    ensures left > 0 ==> q * m + left + m - 1 == (q + 1) * m + (left - 1) && left - 1 < m
    ensures left == 0 ==> q * m + left + m - 1 == q * m + (m - 1)
  {
  }

  lemma {:induction false} StartMonotone(layers: nat, tiles: nat, t: nat, u: nat)
    requires tiles > 0 && t <= u
    ensures Start(layers, tiles, t) <= Start(layers, tiles, u)
    decreases u
  {
    if t < u {
      StartMonotone(layers, tiles, t, u - 1);
      StartStep(layers, tiles, u - 1);
      hide Start;
    }
  }

  /** The layers handed out so far are those before Start(k), each to the tile whose block covers it. */
  lemma {:induction false} GreedyCovers(layers: nat, tiles: nat, k: nat)
    requires tiles > 0 && k <= tiles
    ensures |Greedy(layers, tiles, k)| == Start(layers, tiles, k) <= layers
    ensures forall l :: 0 <= l < |Greedy(layers, tiles, k)| ==> InBlock(layers, tiles, Greedy(layers, tiles, k)[l], k, l)
  {
    if k > 0 {
      GreedyCovers(layers, tiles, k - 1);
      GreedyStep(layers, tiles, k - 1);
      StartStep(layers, tiles, k - 1);
      StartMonotone(layers, tiles, k, tiles);
      StartEnds(layers, tiles);
      hide Start;
      hide BlockSize;
      hide GreedyCount;
    } else {
      StartEnds(layers, tiles);
    }
  }

  ghost predicate InBlock(layers: nat, tiles: nat, t: nat, bound: nat, l: nat)
    requires tiles > 0
  {
    t < bound && Start(layers, tiles, t) <= l < Start(layers, tiles, t + 1)
  }

  lemma {:induction false} RepeatCount(t: nat, u: nat, count: nat)
    ensures multiset(Repeat(t, count))[u] == if t == u then count else 0
  {
    if count > 0 {
      RepeatCount(t, u, count - 1);
      assert Repeat(t, count) == Repeat(t, count - 1) + [t];
    }
  }

  lemma {:induction false} CountConcat(a: seq<nat>, b: seq<nat>, t: nat)
    ensures multiset(a + b)[t] == multiset(a)[t] + multiset(b)[t]
  {
  }

  lemma {:induction false} GreedyUnfold(layers: nat, tiles: nat, k: nat)
    requires 0 < k <= tiles
    ensures Greedy(layers, tiles, k) == Greedy(layers, tiles, k - 1) + Repeat(k - 1, BlockSize(layers, tiles, k - 1))
  {
    GreedyCovers(layers, tiles, k - 1);
    GreedyStep(layers, tiles, k - 1);
    hide Start;
    hide BlockSize;
    hide GreedyCount;
  }

  lemma {:induction false} GreedyCounts(layers: nat, tiles: nat, k: nat, t: nat)
    requires tiles > 0 && k <= tiles
    ensures multiset(Greedy(layers, tiles, k))[t] == if t < k then BlockSize(layers, tiles, t) else 0
  {
    hide BlockSize;
    hide Repeat;
    if k > 0 {
      GreedyCounts(layers, tiles, k - 1, t);
      GreedyUnfold(layers, tiles, k);
      var before, block := Greedy(layers, tiles, k - 1), Repeat(k - 1, BlockSize(layers, tiles, k - 1));
      RepeatCount(k - 1, t, BlockSize(layers, tiles, k - 1));
      CountConcat(before, block, t);
    }
  }

  lemma {:induction false} GreedyOrdered(layers: nat, tiles: nat, k: nat, l: nat, m: nat)
    requires k <= tiles && l <= m < |Greedy(layers, tiles, k)|
    ensures Greedy(layers, tiles, k)[l] <= Greedy(layers, tiles, k)[m] < k
  {
    if k > 0 {
      GreedyUnfold(layers, tiles, k);
      var before := Greedy(layers, tiles, k - 1);
      hide Greedy;
      hide BlockSize;
      if m < |before| {
        GreedyOrdered(layers, tiles, k - 1, l, m);
      } else if l < |before| {
        GreedyOrdered(layers, tiles, k - 1, l, l);
      }
    }
  }

  lemma {:induction false} OwnerIff(layers: nat, tiles: nat, l: nat, t: nat)
    requires tiles > 0 && l < layers
    ensures |Assignment(layers, tiles)| == layers
    ensures Assignment(layers, tiles)[l] == t <==> InBlock(layers, tiles, t, tiles, l)
  {
    GreedyCovers(layers, tiles, tiles);
    StartEnds(layers, tiles);
    hide Start;
    hide Greedy;
    var u := Assignment(layers, tiles)[l];
    assert InBlock(layers, tiles, u, tiles, l);
    if InBlock(layers, tiles, t, tiles, l) {
      BlocksOrdered(layers, tiles, t, u, l);
      BlocksOrdered(layers, tiles, u, t, l);
    }
  }

  lemma {:induction false} BlocksOrdered(layers: nat, tiles: nat, t: nat, u: nat, l: nat)
    requires tiles > 0 && InBlock(layers, tiles, t, tiles, l) && InBlock(layers, tiles, u, tiles, l)
    ensures t <= u
  {
    hide Start;
    if u < t {
      StartMonotone(layers, tiles, u + 1, t);
    }
  }

  lemma {:induction false} BlockSizes(layers: nat, tiles: nat)
    requires tiles > 0
    ensures forall t, u :: 0 <= t <= u ==> BlockSize(layers, tiles, u) <= BlockSize(layers, tiles, t)
    ensures layers < tiles ==> forall t :: 0 <= t < tiles ==> BlockSize(layers, tiles, t) == if t < layers then 1 else 0
  {
    if layers < tiles {
      DivModUnique(layers, tiles, 0, layers);
    }
  }

  /** Every layer is scheduled; tile t holds exactly the layers of its block, the blocks come in tile
      order and never grow, and the number of layers per tile is floor(L / T), one more for the
      first L mod T tiles.  Tiles beyond the last layer get none. */
  lemma {:induction false} ScheduleIsBalanced(layers: nat, tiles: nat)
    requires tiles > 0
    ensures |Assignment(layers, tiles)| == layers
    ensures forall l, t :: 0 <= l < layers && 0 <= t ==>
              (Assignment(layers, tiles)[l] == t <==> InBlock(layers, tiles, t, tiles, l))
    ensures forall l, m :: 0 <= l <= m < layers ==> Assignment(layers, tiles)[l] <= Assignment(layers, tiles)[m] < tiles
    ensures forall t :: 0 <= t < tiles ==> multiset(Assignment(layers, tiles))[t] == BlockSize(layers, tiles, t)
    ensures forall t, u :: 0 <= t <= u ==> BlockSize(layers, tiles, u) <= BlockSize(layers, tiles, t)
    ensures layers < tiles ==> forall t :: 0 <= t < tiles ==> BlockSize(layers, tiles, t) == if t < layers then 1 else 0
  {
    GreedyCovers(layers, tiles, tiles);
    StartEnds(layers, tiles);
    BlockSizes(layers, tiles);
    var a := Assignment(layers, tiles);
    hide *;
    forall l, t | 0 <= l < layers && 0 <= t
      ensures a[l] == t <==> InBlock(layers, tiles, t, tiles, l)
    {
      OwnerIff(layers, tiles, l, t);
    }
    forall l, m | 0 <= l <= m < layers
      ensures a[l] <= a[m] < tiles
    {
      GreedyOrdered(layers, tiles, tiles, l, m);
    }
    forall t | 0 <= t < tiles
      ensures multiset(a)[t] == BlockSize(layers, tiles, t)
    {
      GreedyCounts(layers, tiles, tiles, t);
    }
  }

  /** With no tiles the greedy loop assigns nothing, so a positive tile count is needed. */
  lemma {:induction false} NoTilesNoSchedule(layers: nat)
    ensures Assignment(layers, 0) == []
  {
  }
}
