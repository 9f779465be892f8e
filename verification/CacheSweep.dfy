/** The sweep of the cache simulator: what its curves promise about the runs behind them. */
module CacheSweep {
  import opened Basics
  import opened CacheTheory
  import opened CacheReplay
  import opened CacheSim

  /** One cell of the sweep: a fresh simulator over the whole trace. */
  method RunOne(batches: seq<LayerBatch>, nPrefill: nat, c: Costs, nLayer: int, policy: Policy, budget: int)
    returns (ok: bool, hits: int, decHits: int, decLookups: int, ghost sched: seq<set<Key>>)
    ensures ok <==> AllSized(c, batches, |batches|)
    ensures ok ==> Replays(policy, c, budget, nLayer, batches, sched)
    ensures ok ==>
              var touched := TouchedSets(AllKeys(batches));
              && hits == Hits(touched, sched, |batches|)
              && decHits == hits - Hits(touched, sched, Min(nPrefill, |batches|))
              && decLookups == Lookups(touched, |batches|) - Lookups(touched, Min(nPrefill, |batches|))
  {
    var sim := new Sim(policy, budget, c, nLayer);
    ok, sched := sim.Run(batches, nPrefill);
    hits, decHits, decLookups := sim.hits, sim.decHits, sim.decLookups;
  }

  ghost predicate UniformCost(c: Costs, batches: seq<LayerBatch>, unit: int) {
    unit > 0 && forall i :: 0 <= i < |batches| ==> batches[i].ids != [] ==> c.Of(Key(batches[i].layer, 0)) == unit
  }

  lemma KeysCostUnit(c: Costs, batches: seq<LayerBatch>, unit: int, i: nat)
    requires UniformCost(c, batches, unit) && i < |batches|
    ensures forall x :: x in SetOf(KeysOf(batches[i])) ==> c.Of(x) == unit
  {
    forall x | x in SetOf(KeysOf(batches[i]))
      ensures c.Of(x) == unit
    {
      assert x.layer == batches[i].layer;
      assert c.Of(Key(batches[i].layer, 0)) == unit;
    }
  }

  /** Everything resident was touched earlier, so it costs one unit too. */
  lemma {:induction false} ResidentCostUnit(policy: Policy, c: Costs, budget: int, nLayer: int,
                                            batches: seq<LayerBatch>, sched: seq<set<Key>>,
                                            unit: int, n: nat)
    requires UniformCost(c, batches, unit) && Replays(policy, c, budget, nLayer, batches, sched) && n <= |batches|
    ensures forall x :: x in sched[n] ==> c.Of(x) == unit
  {
    if n > 0 {
      ResidentCostUnit(policy, c, budget, nLayer, batches, sched, unit, n - 1);
      KeysCostUnit(c, batches, unit, n - 1);
      StepKeepsWithin(policy, c, budget, nLayer, batches, sched, n - 1);
    }
  }

  /** With experts of one size, a step of a global policy is a step within a number of entries. */
  lemma GlobalStepIsRoomy(policy: Policy, c: Costs, budget: int, nLayer: int, batches: seq<LayerBatch>,
                          sched: seq<set<Key>>, unit: int, i: nat)
    requires UniformCost(c, batches, unit) && Replays(policy, c, budget, nLayer, batches, sched)
    requires !policy.Partitioned() && i < |batches|
    ensures var t := TouchedSets(AllKeys(batches))[i];
            && WithinRoom(sched[i], t, budget / unit, sched[i + 1])
            && (sched[i + 1] == sched[i] + t || |sched[i + 1]| >= Max(budget / unit, |t|))
  {
    KeysCostUnit(c, batches, unit, i);
    ResidentCostUnit(policy, c, budget, nLayer, batches, sched, unit, i);
    StepOf(policy, c, budget, nLayer, batches, sched, i);
    StepKeepsBudget(policy, c, budget, nLayer, batches[i].layer, TouchedSets(AllKeys(batches)),
                    StampsAt(AllKeys(batches), i + 1).0, sched[i], i, sched[i + 1]);
    BudgetIsRoom(c, unit, budget, sched[i], TouchedSets(AllKeys(batches))[i], sched[i + 1]);
  }

  lemma ReplayIsRoomy(policy: Policy, c: Costs, budget: int, nLayer: int, batches: seq<LayerBatch>,
                      sched: seq<set<Key>>, unit: int)
    requires UniformCost(c, batches, unit) && Replays(policy, c, budget, nLayer, batches, sched)
    requires !policy.Partitioned()
    ensures RoomyRun(TouchedSets(AllKeys(batches)), sched, budget / unit)
  {
    forall i | 0 <= i < |batches|
      ensures WithinRoom(sched[i], TouchedSets(AllKeys(batches))[i], budget / unit, sched[i + 1])
    {
      GlobalStepIsRoomy(policy, c, budget, nLayer, batches, sched, unit, i);
    }
  }

  lemma ReplayIsBelady(c: Costs, budget: int, nLayer: int, batches: seq<LayerBatch>, sched: seq<set<Key>>, unit: int)
    requires UniformCost(c, batches, unit) && Replays(Belady, c, budget, nLayer, batches, sched)
    ensures BeladyRun(TouchedSets(AllKeys(batches)), sched, budget / unit)
  {
    var touched := TouchedSets(AllKeys(batches));
    forall i | 0 <= i < |batches|
      ensures BeladyStep(touched, i, sched[i], budget / unit, sched[i + 1])
    {
      GlobalStepIsRoomy(Belady, c, budget, nLayer, batches, sched, unit, i);
      StepOf(Belady, c, budget, nLayer, batches, sched, i);
      StepDropsFurthest(c, budget, nLayer, batches[i].layer, touched, StampsAt(AllKeys(batches), i + 1).0,
                        sched[i], i, sched[i + 1]);
    }
  }

  /** The belady curve is the ceiling of every other global policy at the same budget, at every point
      of the replay and whatever a random choice or a tie was resolved to. */
  lemma BeladyIsTheCeiling(c: Costs, unit: int, budget: int, nLayer: int, batches: seq<LayerBatch>, policy: Policy,
                           belady: seq<set<Key>>, other: seq<set<Key>>, n: nat)
    requires UniformCost(c, batches, unit) && !policy.Partitioned() && n <= |batches|
    requires Replays(Belady, c, budget, nLayer, batches, belady) && Replays(policy, c, budget, nLayer, batches, other)
    ensures var touched := TouchedSets(AllKeys(batches)); Hits(touched, belady, n) >= Hits(touched, other, n)
  {
    ReplayIsBelady(c, budget, nLayer, batches, belady, unit);
    ReplayIsRoomy(policy, c, budget, nLayer, batches, other, unit);
    BeladyIsOptimal(TouchedSets(AllKeys(batches)), belady, other, budget / unit, n);
  }

  lemma ReplayIsLru(c: Costs, budget: int, nLayer: int, batches: seq<LayerBatch>, sched: seq<set<Key>>)
    requires Replays(Lru, c, budget, nLayer, batches, sched)
    ensures LruRun(c, budget, AllKeys(batches), sched)
  {
    var keys := AllKeys(batches);
    forall i | 0 <= i < |keys|
      ensures sched[i + 1] <= sched[i] + SetOf(keys[i])
    {
      StepKeepsWithin(Lru, c, budget, nLayer, batches, sched, i);
    }
    forall i | 0 <= i < |batches|
      ensures LruStep(c, budget, StampsAt(keys, i + 1).0, sched[i], TouchedSets(keys)[i], sched[i + 1])
    {
      StepOf(Lru, c, budget, nLayer, batches, sched, i);
      ResidentIsStamped(keys, sched, i);
      LruStepAt(c, budget, nLayer, batches[i].layer, keys, sched[i], i, sched[i + 1]);
    }
  }

  lemma LruStepAt(c: Costs, budget: int, nLayer: int, layer: int, keys: seq<seq<Key>>, r: set<Key>, i: nat,
                  r': set<Key>)
    requires i < |keys| && r <= StampsAt(keys, i).0.Keys
    requires ReplayStep(Lru, c, budget, nLayer, layer, TouchedSets(keys), StampsAt(keys, i + 1).0, r, i, r')
    ensures LruStep(c, budget, StampsAt(keys, i + 1).0, r, TouchedSets(keys)[i], r')
  {
    StampsGrow(keys, i);
    StepDropsOldest(c, budget, nLayer, layer, TouchedSets(keys), StampsAt(keys, i + 1).0, r, i, r');
  }

  /** One more batch stamps its keys, and no two keys share a stamp. */
  lemma StampsGrow(keys: seq<seq<Key>>, i: nat)
    requires i < |keys|
    ensures StampsAt(keys, i + 1).0.Keys == StampsAt(keys, i).0.Keys + SetOf(keys[i])
    ensures var last := StampsAt(keys, i + 1).0; forall x, y :: x in last && y in last && last[x] == last[y] ==> x == y
  {
    StampedNewer(StampsAt(keys, i).0, StampsAt(keys, i).1, keys[i]);
    StampsAtStamps(keys, i + 1);
  }

  /** Everything resident has a stamp. */
  lemma {:induction false} ResidentIsStamped(keys: seq<seq<Key>>, sched: seq<set<Key>>, n: nat)
    requires n <= |keys| && |sched| == |keys| + 1 && sched[0] == {}
    requires forall i :: 0 <= i < |keys| ==> sched[i + 1] <= sched[i] + SetOf(keys[i])
    ensures sched[n] <= StampsAt(keys, n).0.Keys
  {
    if n > 0 {
      ResidentIsStamped(keys, sched, n - 1);
      StampsGrow(keys, n - 1);
    }
  }

  /** A batch brings in only what it touches. */
  lemma StepKeepsWithin(policy: Policy, c: Costs, budget: int, nLayer: int, batches: seq<LayerBatch>,
                        sched: seq<set<Key>>, i: nat)
    requires Replays(policy, c, budget, nLayer, batches, sched) && i < |batches|
    ensures sched[i + 1] <= sched[i] + TouchedSets(AllKeys(batches))[i]
    ensures TouchedSets(AllKeys(batches))[i] <= sched[i + 1]
  {
    StepOf(policy, c, budget, nLayer, batches, sched, i);
  }

  /** The lru curve never falls as the budget grows, whatever the layers weigh. */
  lemma LruCurveIsMonotone(c: Costs, budget1: int, budget2: int, nLayer: int, batches: seq<LayerBatch>,
                           small: seq<set<Key>>, large: seq<set<Key>>, n: nat)
    requires c.NonNegative() && budget1 <= budget2 && n <= |batches|
    requires Replays(Lru, c, budget1, nLayer, batches, small) && Replays(Lru, c, budget2, nLayer, batches, large)
    ensures small[n] <= large[n]
    ensures var touched := TouchedSets(AllKeys(batches)); Hits(touched, small, n) <= Hits(touched, large, n)
  {
    ReplayIsLru(c, budget1, nLayer, batches, small);
    ReplayIsLru(c, budget2, nLayer, batches, large);
    LruInclusion(c, budget1, budget2, AllKeys(batches), small, large, n);
  }

  /** The decode-only figures that the sweep prints are the whole hit counts, because prefill is one
      pass over distinct layers from an empty cache. */
  lemma DecodeHitsAreAllHits(policy: Policy, c: Costs, budget: int, nLayer: int, batches: seq<LayerBatch>,
                             sched: seq<set<Key>>, nPrefill: nat)
    requires Replays(policy, c, budget, nLayer, batches, sched) && nPrefill <= |batches|
    requires forall i, j :: 0 <= i < j < nPrefill ==> batches[i].layer != batches[j].layer
    ensures Hits(TouchedSets(AllKeys(batches)), sched, nPrefill) == 0
  {
    var touched := TouchedSets(AllKeys(batches));
    forall i | 0 <= i < |touched|
      ensures sched[i + 1] <= sched[i] + touched[i]
    {
      StepKeepsWithin(policy, c, budget, nLayer, batches, sched, i);
    }
    forall i, j | 0 <= i < j < nPrefill
      ensures touched[i] !! touched[j]
    {
      assert forall x: Key :: x in touched[i] ==> x.layer == batches[i].layer;
      assert forall x: Key :: x in touched[j] ==> x.layer == batches[j].layer;
    }
    PrefillNeverHits(touched, sched, nPrefill);
  }

  /** The rate that the sweep prints, in percent. */
  function Rate(hits: int, lookups: int): real {
    if lookups == 0 then 0.0 else 100.0 * hits as real / lookups as real
  }

  lemma RateGrows(a: int, b: int, lookups: int)
    requires a <= b && lookups >= 0
    ensures Rate(a, lookups) <= Rate(b, lookups)
  {
    if lookups > 0 {
      assert 100.0 * a as real <= 100.0 * b as real;
    }
  }

  /** One row of the printed curve: a policy next to the ceiling, on decode-only hits, of the same lookups. */
  method CompareWithCeiling(batches: seq<LayerBatch>, nPrefill: nat, c: Costs, nLayer: int, policy: Policy, budget: int,
                            ghost unit: int)
    returns (ok: bool, ceiling: real, rate: real)
    requires nPrefill <= |batches| && forall i, j :: 0 <= i < j < nPrefill ==> batches[i].layer != batches[j].layer
    ensures ok <==> AllSized(c, batches, |batches|)
    ensures ok && UniformCost(c, batches, unit) && !policy.Partitioned() ==> rate <= ceiling
  {
    ceiling, rate := 0.0, 0.0;
    var total, hits, lookups, totalB, most;
    ghost var other, belady;
    ok, total, hits, lookups, other := RunOne(batches, nPrefill, c, nLayer, policy, budget);
    if !ok { return; }
    ok, totalB, most, lookups, belady := RunOne(batches, nPrefill, c, nLayer, Belady, budget);
    rate, ceiling := Rate(hits, lookups), Rate(most, lookups);
    if UniformCost(c, batches, unit) && !policy.Partitioned() {
      BeladyIsTheCeiling(c, unit, budget, nLayer, batches, policy, belady, other, |batches|);
      DecodeHitsAreAllHits(policy, c, budget, nLayer, batches, other, nPrefill);
      DecodeHitsAreAllHits(Belady, c, budget, nLayer, batches, belady, nPrefill);
      LookupsGrow(TouchedSets(AllKeys(batches)), nPrefill, |batches|);
      RateGrows(hits, most, lookups);
    }
  }

  lemma {:induction false} LookupsGrow(touched: seq<set<Key>>, j: nat, n: nat)
    requires j <= n <= |touched|
    ensures Lookups(touched, j) <= Lookups(touched, n)
    decreases n
  {
    if j < n {
      LookupsGrow(touched, j, n - 1);
    }
  }
}
