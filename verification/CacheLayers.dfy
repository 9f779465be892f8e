/** The ceiling of the furthest-next-use policy over the partitioned policies: for which numbers of expert
    layers, and for which batches, no partitioned cache can have more hits. */
module CacheLayers {
  import opened Basics
  import opened CacheTheory
  import opened CacheReplay
  import opened CacheSweep
  import opened CacheTraces
  import opened CacheWide
  import opened CacheCeiling

  /** The expert layers share one size of expert, and every batch loads at most k experts of one of them. What
      the other layers of the model cost does not matter. */
  ghost predicate Loads(c: Costs, unit: int, moe: set<int>, k: nat, batches: seq<LayerBatch>) {
    && (forall l :: l in moe ==> l in c.bytes && c.bytes[l] == unit)
    && (forall i :: 0 <= i < |batches| ==> batches[i].layer in moe && |SetOf(KeysOf(batches[i]))| <= k)
  }

  /** No partitioned policy passes the belady curve on traces whose batches load at most k experts. */
  ghost predicate LayerCeiling(c: Costs, unit: int, budget: int, nLayer: nat, moe: set<int>, k: nat) {
    forall batches: seq<LayerBatch>, policy: Policy, belady: seq<set<Key>>, layered: seq<set<Key>>
      {:trigger Covered(c, budget, nLayer, batches, policy, belady, layered)} ::
      Loads(c, unit, moe, k, batches) && policy.Partitioned() ==>
        Covered(c, budget, nLayer, batches, policy, belady, layered)
  }

  /** The ceiling holds for the partitioned policies exactly when one batch of every expert layer fits the
      budget, or there is only one such layer. Otherwise a layer that outgrows its slice, which is a share of
      the budget among all layers of the model, keeps its whole batch, and the expert layers together hold more
      than the budget that the global policy obeys. */
  lemma LayerCeilingNeedsRoom(c: Costs, unit: int, budget: int, nLayer: nat, moe: set<int>, k: nat)
    requires 0 < nLayer && |moe| <= nLayer && budget >= 0 && unit > 0
    requires forall l :: l in moe ==> l in c.bytes && c.bytes[l] == unit
    ensures LayerCeiling(c, unit, budget, nLayer, moe, k) <==> |moe| <= 1 || unit * (k * |moe|) <= budget
  {
    TimesIsProduct(k, |moe|);
    if |moe| <= 1 || unit * (k * |moe|) <= budget {
      forall batches: seq<LayerBatch>, policy: Policy, belady: seq<set<Key>>, layered: seq<set<Key>>
        | Loads(c, unit, moe, k, batches) && policy.Partitioned()
        ensures Covered(c, budget, nLayer, batches, policy, belady, layered)
      {
        LayersAreCovered(c, unit, budget, nLayer, moe, k, batches, policy, belady, layered);
      }
    } else {
      TwoPassesPass(c, unit, budget, nLayer, moe, k);
    }
  }

  lemma LayersAreCovered(c: Costs, unit: int, budget: int, nLayer: nat, moe: set<int>, k: nat, batches: seq<LayerBatch>,
                         policy: Policy, belady: seq<set<Key>>, layered: seq<set<Key>>)
    requires 0 < nLayer && |moe| <= nLayer && budget >= 0 && unit > 0 && policy.Partitioned()
    requires Loads(c, unit, moe, k, batches) && (|moe| <= 1 || unit * Times(k, |moe|) <= budget)
    ensures Covered(c, budget, nLayer, batches, policy, belady, layered)
  {
    if Replays(Belady, c, budget, nLayer, batches, belady) && Replays(policy, c, budget, nLayer, batches, layered) {
      LoadsAreUniform(c, unit, moe, k, batches);
      ReplayIsBelady(c, budget, nLayer, batches, belady, unit);
      LayersAreRoomy(c, unit, budget, nLayer, moe, k, batches, policy, layered);
      BeladyIsOptimal(TouchedSets(AllKeys(batches)), belady, layered, budget / unit, |batches|);
    }
  }

  lemma LoadsAreUniform(c: Costs, unit: int, moe: set<int>, k: nat, batches: seq<LayerBatch>)
    requires unit > 0 && Loads(c, unit, moe, k, batches)
    ensures UniformCost(c, batches, unit)
  {
  }

  /** The partitioned replay keeps to as many entries as the global budget has room for. */
  lemma LayersAreRoomy(c: Costs, unit: int, budget: int, nLayer: nat, moe: set<int>, k: nat, batches: seq<LayerBatch>,
                       policy: Policy, sched: seq<set<Key>>)
    requires 0 < nLayer && |moe| <= nLayer && budget >= 0 && unit > 0 && policy.Partitioned()
    requires Loads(c, unit, moe, k, batches) && (|moe| <= 1 || unit * Times(k, |moe|) <= budget)
    requires Replays(policy, c, budget, nLayer, batches, sched)
    ensures RoomyRun(TouchedSets(AllKeys(batches)), sched, budget / unit)
  {
    var touched, layers := TouchedSets(AllKeys(batches)), LayersOf(batches);
    ReplayIsLayered(c, budget, nLayer, batches, policy, sched);
    LoadsAreUniform(c, unit, moe, k, batches);
    forall i, x | 0 <= i <= |batches| && x in sched[i]
      ensures c.Of(x) == unit && x.layer in moe
    {
      ResidentCostUnit(policy, c, budget, nLayer, batches, sched, unit, i);
      ResidentInLayers(c, budget / nLayer, moe, batches, touched, sched, i);
    }
    forall i | 0 <= i < |batches|
      ensures WithinRoom(sched[i], touched[i], budget / unit, sched[i + 1])
    {
      assert LayerStep(c, budget / nLayer, layers[i], sched[i], touched[i], sched[i + 1]);
      if |moe| <= 1 {
        OneLayerIsRoomy(c, unit, budget, nLayer, moe, layers[i], sched[i], touched[i], sched[i + 1]);
      } else {
        SlicesAreRoomy(c, unit, budget, nLayer, moe, k, layers, touched, sched, i + 1);
      }
    }
  }

  lemma {:induction false} ResidentInLayers(c: Costs, part: int, moe: set<int>, batches: seq<LayerBatch>,
                                            touched: seq<set<Key>>, sched: seq<set<Key>>, n: nat)
    requires n <= |batches| && LayerRun(c, part, LayersOf(batches), touched, sched)
    requires forall i :: 0 <= i < |batches| ==> batches[i].layer in moe
    ensures forall x :: x in sched[n] ==> x.layer in moe
  {
    if n > 0 {
      ResidentInLayers(c, part, moe, batches, touched, sched, n - 1);
      assert LayerStep(c, part, LayersOf(batches)[n - 1], sched[n - 1], touched[n - 1], sched[n]);
    }
  }

  /** With a single expert layer the whole cache is that layer's. */
  lemma OneLayerIsRoomy(c: Costs, unit: int, budget: int, nLayer: nat, moe: set<int>, layer: int, r: set<Key>,
                        t: set<Key>, r': set<Key>)
    requires 0 < nLayer && budget >= 0 && unit > 0 && |moe| <= 1 && layer in moe
    requires LayerStep(c, budget / nLayer, layer, r, t, r')
    requires forall x :: x in r' ==> c.Of(x) == unit && x.layer in moe
    ensures WithinRoom(r, t, budget / unit, r')
  {
    assert moe == {layer} by {
      SubsetIsAll({layer}, moe);
    }
    assert InLayer(r', layer) == r';
    SliceIsLess(budget, nLayer);
    SumUniform(r', c, unit);
    FloorBound(unit, budget, |r'|);
  }

  lemma SubsetIsAll(a: set<int>, b: set<int>)
    requires a <= b && |b| <= |a|
    ensures a == b
  {
    assert b == a + (b - a);
  }

  lemma SliceIsLess(budget: int, nLayer: nat)
    requires budget >= 0 && nLayer > 0
    ensures 0 <= budget / nLayer <= budget
  {
    FloorBound(nLayer, budget, 0);
    FloorBound(nLayer, budget, budget / nLayer);
    Monotone(budget / nLayer, 1, nLayer);
  }

  lemma SlicesAreRoomy(c: Costs, unit: int, budget: int, nLayer: nat, moe: set<int>, k: nat, layers: seq<int>,
                       touched: seq<set<Key>>, sched: seq<set<Key>>, n: nat)
    requires 0 < nLayer && |moe| <= nLayer && budget >= 0 && unit > 0 && unit * Times(k, |moe|) <= budget
    requires n <= |touched| && LayerRun(c, budget / nLayer, layers, touched, sched)
    requires forall i :: 0 <= i < |touched| ==> |touched[i]| <= k
    requires forall i, x :: 0 <= i <= |touched| && x in sched[i] ==> c.Of(x) == unit && x.layer in moe
    ensures |sched[n]| <= budget / unit
  {
    var part := budget / nLayer;
    SliceIsLess(budget, nLayer);
    FloorBound(unit, part, 0);
    var w := Max(part / unit, k);
    forall l | l in moe
      ensures |InLayer(sched[n], l)| <= w
    {
      LayerBound(c, unit, part, w, layers, touched, sched, n, l);
    }
    SizeOverLayers(sched[n], moe, w);
    SlicesFit(unit, budget, nLayer, |moe|);
    FloorBound(unit, budget, Times(w, |moe|));
  }

  /** As many slices as there are expert layers fit the budget, in whole experts. */
  lemma SlicesFit(unit: int, budget: int, nLayer: nat, n: nat)
    requires 0 < nLayer && n <= nLayer && budget >= 0 && unit > 0
    ensures budget / nLayer / unit >= 0 && unit * Times(budget / nLayer / unit, n) <= budget
  {
    var part := budget / nLayer;
    SliceIsLess(budget, nLayer);
    var w := part / unit;
    FloorBound(unit, part, 0);
    FloorBound(unit, part, w);
    SlicesOf(unit, part, w, n);
    FloorBound(nLayer, budget, part);
    Monotone(part, n, nLayer);
  }

  lemma {:induction false} SlicesOf(unit: int, part: int, w: nat, n: nat)
    requires unit > 0 && part >= 0 && unit * w <= part
    ensures unit * Times(w, n) <= part * n
  {
    if n > 0 {
      SlicesOf(unit, part, w, n - 1);
      assert unit * (Times(w, n - 1) + w) == unit * Times(w, n - 1) + unit * w;
      assert part * n == part * (n - 1) + part;
    }
  }

  lemma {:induction false} Monotone(part: int, n: nat, m: nat)
    requires part >= 0 && n <= m
    ensures part * n <= m * part
    decreases m
  {
    if n < m {
      Monotone(part, n, m - 1);
      assert m * part == (m - 1) * part + part;
    }
  }

  function LayersOf(batches: seq<LayerBatch>): (layers: seq<int>)
    ensures |layers| == |batches| && forall i :: 0 <= i < |layers| ==> layers[i] == batches[i].layer
  {
    seq(|batches|, i requires 0 <= i < |batches| => batches[i].layer)
  }

  lemma ReplayIsLayered(c: Costs, budget: int, nLayer: nat, batches: seq<LayerBatch>, policy: Policy,
                        sched: seq<set<Key>>)
    requires nLayer > 0 && policy.Partitioned() && Replays(policy, c, budget, nLayer, batches, sched)
    ensures LayerRun(c, budget / nLayer, LayersOf(batches), TouchedSets(AllKeys(batches)), sched)
  {
    var touched := TouchedSets(AllKeys(batches));
    forall i | 0 <= i < |batches|
      ensures LayerStep(c, budget / nLayer, LayersOf(batches)[i], sched[i], touched[i], sched[i + 1])
    {
      StepOf(policy, c, budget, nLayer, batches, sched, i);
      StepKeepsLayer(policy, c, budget, nLayer, batches[i].layer, touched, StampsAt(AllKeys(batches), i + 1).0,
                     sched[i], i, sched[i + 1]);
    }
  }

  // The trace that passes the curve: two passes over the expert layers, with k experts each.

  lemma {:induction false} InOrder(moe: set<int>) returns (order: seq<int>)
    ensures |order| == |moe| && forall l :: l in moe <==> l in order
    ensures Distinct(order)
    decreases moe
  {
    if moe == {} {
      order := [];
    } else {
      var l := Pick(moe);
      var rest := InOrder(moe - {l});
      order := rest + [l];
    }
  }

  lemma {:induction false} TimesMonotone(a: nat, b: nat, n: nat)
    requires a <= b
    ensures Times(a, n) <= Times(b, n)
  {
    if n > 0 { TimesMonotone(a, b, n - 1); }
  }

  /** Where one batch of every layer does not fit, a slice has no room for one batch. */
  lemma SliceIsSmall(unit: int, budget: int, nLayer: nat, n: nat, k: nat)
    requires 0 < nLayer && n <= nLayer && budget >= 0 && unit > 0 && unit * Times(k, n) > budget
    ensures 0 <= Slice(budget, nLayer) / unit < k
  {
    var room := budget / nLayer / unit;
    SlicesFit(unit, budget, nLayer, n);
    if k <= room {
      TimesMonotone(k, room, n);
      FloorBound(unit, budget, Times(k, n));
      FloorBound(unit, budget, Times(room, n));
    }
  }

  /** Whatever belady does with the two passes, the partitioned cache hits more. */
  lemma TwoPassesPass(c: Costs, unit: int, budget: int, nLayer: nat, moe: set<int>, k: nat)
    requires 0 < nLayer && |moe| <= nLayer && budget >= 0 && unit > 0 && |moe| > 1 && unit * Times(k, |moe|) > budget
    requires forall l :: l in moe ==> l in c.bytes && c.bytes[l] == unit
    ensures !LayerCeiling(c, unit, budget, nLayer, moe, k)
  {
    var order := InOrder(moe);
    var v := Wide(order, k, k, k);
    SliceIsSmall(unit, budget, nLayer, |moe|, k);
    FloorBound(unit, budget, Times(k, |moe|));
    var belady := ReplayExists(Belady, c, budget, nLayer, v.Batches(), |v.Batches()|);
    var layered := ReplayExists(Layer, c, budget, nLayer, v.Batches(), |v.Batches()|);
    WidePasses(v, c, unit, budget, nLayer, Belady, belady, layered);
    WideLoads(c, unit, moe, v);
    assert !Covered(c, budget, nLayer, v.Batches(), Layer, belady, layered);
  }

  lemma WideLoads(c: Costs, unit: int, moe: set<int>, v: Wide)
    requires forall l :: l in moe ==> l in c.bytes && c.bytes[l] == unit
    requires v.Ok() && forall l :: l in v.order ==> l in moe
    ensures Loads(c, unit, moe, v.w, v.Batches())
  {
    WideIsShaped(v);
  }
}
