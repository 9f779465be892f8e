/** Where the ceiling of the furthest-next-use policy is one: for which expert sizes no other global policy of
    the simulator can have more hits, on any trace, and on the traces that the engine writes. */
module CacheCeiling {
  import opened CacheTheory
  import opened CacheReplay
  import opened CacheSweep
  import opened CacheTraces
  import opened CacheMix

  /** One comparison of the ceiling with another policy. */
  ghost predicate Covered(c: Costs, budget: int, nLayer: int, batches: seq<LayerBatch>, policy: Policy,
                          belady: seq<set<Key>>, other: seq<set<Key>>) {
    Replays(Belady, c, budget, nLayer, batches, belady) && Replays(policy, c, budget, nLayer, batches, other) ==>
      var touched := TouchedSets(AllKeys(batches)); Hits(touched, belady, |batches|) >= Hits(touched, other, |batches|)
  }

  // ---- on every trace ----

  /** The layers with experts share one size of expert. A preamble may list the other layers at 0 bytes. */
  ghost predicate OneSize(c: Costs) {
    forall l, k :: l in c.bytes && k in c.bytes && c.bytes[l] > 0 && c.bytes[k] > 0 ==> c.bytes[l] == c.bytes[k]
  }

  /** A trace loads only layers that have experts. */
  ghost predicate LoadsExperts(c: Costs, batches: seq<LayerBatch>) {
    forall i :: 0 <= i < |batches| && batches[i].ids != [] ==> c.Of(Key(batches[i].layer, 0)) > 0
  }

  /** No global policy ever passes the belady curve, on any trace of the layers that have experts, at any budget. */
  ghost predicate GlobalCeiling(c: Costs) {
    forall budget: int, nLayer: int, batches: seq<LayerBatch>, policy: Policy, belady: seq<set<Key>>,
           other: seq<set<Key>>
      {:trigger Covered(c, budget, nLayer, batches, policy, belady, other)} ::
      LoadsExperts(c, batches) && !policy.Partitioned() ==>
        Covered(c, budget, nLayer, batches, policy, belady, other)
  }

  /** The belady curve is a ceiling exactly when all experts have one size. */
  lemma CeilingNeedsOneSize(c: Costs)
    requires c.NonNegative()
    ensures GlobalCeiling(c) <==> OneSize(c)
  {
    if OneSize(c) {
      OneSizeIsEnough(c);
    } else {
      var a, b :| a in c.bytes && b in c.bytes && 0 < c.bytes[a] < c.bytes[b];
      MixedIsNotCovered(c, a, b);
    }
  }

  lemma MixedIsNotCovered(c: Costs, a: int, b: int)
    requires a in c.bytes && b in c.bytes && 0 < c.bytes[a] < c.bytes[b] && c.NonNegative()
    ensures !GlobalCeiling(c)
  {
    var w := Mix([a, b], 0, 1, 1);
    PairIsSized(c, w, a, b);
    var budget, batches, belady, lfu := LfuPassesOn(w, c);
    assert !Covered(c, budget, 2, batches, Lfu, belady, lfu);
  }

  lemma PairIsSized(c: Costs, w: Mix, a: int, b: int)
    requires a in c.bytes && b in c.bytes && 0 < c.bytes[a] < c.bytes[b] && c.NonNegative()
    requires w == Mix([a, b], 0, 1, 1)
    ensures Sized(w, c) && LoadsExperts(c, w.Batches())
  {
    forall i | 0 <= i < |w.Batches()|
      ensures c.Of(Key(w.Batches()[i].layer, 0)) > 0
    {
      assert w.Batches()[i] == w.BatchOf(i);
    }
  }

  lemma OneSizeIsEnough(c: Costs)
    requires c.NonNegative() && OneSize(c)
    ensures GlobalCeiling(c)
  {
    var unit := if l :| l in c.bytes && c.bytes[l] > 0 then c.bytes[l] else 1;
    forall budget: int, nLayer: int, batches: seq<LayerBatch>, policy: Policy, belady: seq<set<Key>>,
           other: seq<set<Key>>
      | LoadsExperts(c, batches) && !policy.Partitioned()
      ensures Covered(c, budget, nLayer, batches, policy, belady, other)
    {
      UniformIsCovered(c, unit, budget, nLayer, batches, policy, belady, other);
    }
  }

  lemma UniformIsCovered(c: Costs, unit: int, budget: int, nLayer: int, batches: seq<LayerBatch>, policy: Policy,
                         belady: seq<set<Key>>, other: seq<set<Key>>)
    requires UniformCost(c, batches, unit) && !policy.Partitioned()
    ensures Covered(c, budget, nLayer, batches, policy, belady, other)
  {
    if Replays(Belady, c, budget, nLayer, batches, belady) && Replays(policy, c, budget, nLayer, batches, other) {
      BeladyIsTheCeiling(c, unit, budget, nLayer, batches, policy, belady, other, |batches|);
    }
  }

  // ---- on the traces that the engine writes ----

  /** No global policy passes the belady curve on a trace of the engine's shape. */
  ghost predicate EngineCeiling(c: Costs, order: seq<int>, k: nat)
    requires order != []
  {
    forall budget: int, nLayer: int, batches: seq<LayerBatch>, policy: Policy, belady: seq<set<Key>>,
           other: seq<set<Key>>
      {:trigger Covered(c, budget, nLayer, batches, policy, belady, other)} ::
      IsEngineTrace(order, k, batches) && !policy.Partitioned() ==>
        Covered(c, budget, nLayer, batches, policy, belady, other)
  }

  /** Lfu alone does not pass it there. */
  ghost predicate LfuCeiling(c: Costs, order: seq<int>, k: nat)
    requires order != []
  {
    forall budget: int, nLayer: int, batches: seq<LayerBatch>, belady: seq<set<Key>>, lfu: seq<set<Key>>
      {:trigger Covered(c, budget, nLayer, batches, Lfu, belady, lfu)} ::
      IsEngineTrace(order, k, batches) ==> Covered(c, budget, nLayer, batches, Lfu, belady, lfu)
  }

  ghost predicate OneSizeOn(c: Costs, order: seq<int>) {
    forall p, q :: 0 <= p < |order| && 0 <= q < |order| ==> c.Of(Key(order[p], 0)) == c.Of(Key(order[q], 0))
  }

  /** On engine traces, too, the belady curve is a ceiling exactly when the expert layers have one size of
      expert, and that is so of lfu alone. What the other layers are listed with does not matter. */
  lemma EngineCeilingNeedsOneSize(c: Costs, order: seq<int>, k: nat)
    requires order != [] && Distinct(order) && k > 0 && c.NonNegative()
    requires forall p :: 0 <= p < |order| ==> c.Of(Key(order[p], 0)) > 0
    ensures EngineCeiling(c, order, k) <==> OneSizeOn(c, order)
    ensures LfuCeiling(c, order, k) <==> OneSizeOn(c, order)
  {
    if OneSizeOn(c, order) {
      OneSizeIsEnoughOn(c, order, k);
    } else {
      var p, q :| 0 <= p < |order| && 0 <= q < |order| && c.Of(Key(order[p], 0)) < c.Of(Key(order[q], 0));
      LfuIsNotCovered(c, Mix(order, p, q, k));
      LfuIsGlobal(c, order, k);
    }
  }

  lemma LfuIsGlobal(c: Costs, order: seq<int>, k: nat)
    requires order != []
    ensures EngineCeiling(c, order, k) ==> LfuCeiling(c, order, k)
  {
  }

  lemma OneSizeIsEnoughOn(c: Costs, order: seq<int>, k: nat)
    requires order != [] && c.Of(Key(order[0], 0)) > 0 && OneSizeOn(c, order)
    ensures EngineCeiling(c, order, k) && LfuCeiling(c, order, k)
  {
    forall budget: int, nLayer: int, batches: seq<LayerBatch>, policy: Policy, belady: seq<set<Key>>,
           other: seq<set<Key>>
      | IsEngineTrace(order, k, batches) && !policy.Partitioned()
      ensures Covered(c, budget, nLayer, batches, policy, belady, other)
    {
      UniformIsCovered(c, c.Of(Key(order[0], 0)), budget, nLayer, batches, policy, belady, other);
    }
  }

  lemma LfuIsNotCovered(c: Costs, w: Mix)
    requires Sized(w, c)
    ensures !LfuCeiling(c, w.order, w.k)
  {
    var budget, batches, belady, lfu := LfuPassesOn(w, c);
    assert !Covered(c, budget, 2, batches, Lfu, belady, lfu);
  }

  lemma LfuPassesOn(w: Mix, c: Costs)
    returns (budget: int, batches: seq<LayerBatch>, belady: seq<set<Key>>, lfu: seq<set<Key>>)
    requires Sized(w, c)
    ensures batches == w.Batches() && IsEngineTrace(w.order, w.k, batches)
    ensures !Covered(c, budget, 2, batches, Lfu, belady, lfu)
  {
    budget, batches := Budget(w, c), w.Batches();
    belady, lfu := BothReplays(c, budget, 2, batches);
    MixedSizesPass(w, c, 2, belady, lfu);
    PassedIsNotCovered(c, budget, 2, batches, TouchedSets(AllKeys(batches)), belady, lfu);
  }

  lemma BothReplays(c: Costs, budget: int, nLayer: int, batches: seq<LayerBatch>)
    returns (belady: seq<set<Key>>, lfu: seq<set<Key>>)
    ensures Replays(Belady, c, budget, nLayer, batches, belady) && Replays(Lfu, c, budget, nLayer, batches, lfu)
  {
    belady := ReplayExists(Belady, c, budget, nLayer, batches, |batches|);
    lfu := ReplayExists(Lfu, c, budget, nLayer, batches, |batches|);
  }

  lemma PassedIsNotCovered(c: Costs, budget: int, nLayer: int, batches: seq<LayerBatch>, touched: seq<set<Key>>,
                           belady: seq<set<Key>>, lfu: seq<set<Key>>)
    requires Replays(Belady, c, budget, nLayer, batches, belady) && Replays(Lfu, c, budget, nLayer, batches, lfu)
    requires touched == TouchedSets(AllKeys(batches))
    requires Hits(touched, belady, |touched|) < Hits(touched, lfu, |touched|)
    ensures !Covered(c, budget, nLayer, batches, Lfu, belady, lfu)
  {
  }
}
