/** The ceiling of the furthest-next-use policy over the partitioned policies, on the traces that the engine
    writes: a prefill of up to w experts in every expert layer, then k of them for every token. */
module CachePrefill {
  import opened Basics
  import opened CacheTheory
  import opened CacheReplay
  import opened CacheSweep
  import opened CacheTraces
  import opened CacheWide
  import opened CacheCeiling
  import opened CacheLayers

  ghost predicate IsPrefilled(order: seq<int>, k: nat, w: nat, batches: seq<LayerBatch>)
    requires order != []
  {
    && IsEngineTrace(order, k, batches)
    && forall i :: 0 <= i < |order| && i < |batches| ==> |SetOf(KeysOf(batches[i]))| <= w
  }

  /** No partitioned policy passes the belady curve on engine traces with such a prefill. */
  ghost predicate PrefilledCeiling(c: Costs, budget: int, nLayer: nat, order: seq<int>, k: nat, w: nat)
    requires order != []
  {
    forall batches: seq<LayerBatch>, policy: Policy, belady: seq<set<Key>>, layered: seq<set<Key>>
      {:trigger Covered(c, budget, nLayer, batches, policy, belady, layered)} ::
      IsPrefilled(order, k, w, batches) && policy.Partitioned() ==>
        Covered(c, budget, nLayer, batches, policy, belady, layered)
  }

  /** What a partitioned cache holds of a layer once it decodes: a slice, or one batch if that is more. */
  function Share(unit: int, budget: int, nLayer: nat, k: nat): (n: nat)
    requires unit > 0
  {
    Max(Slice(budget, nLayer) / unit, k)
  }

  /** The layers share one size of expert. */
  ghost predicate Uniform(c: Costs, unit: int, order: seq<int>) {
    unit > 0 && forall l :: l in order ==> l in c.bytes && c.bytes[l] == unit
  }

  /** The ceiling holds exactly when the widest prefill of one layer fits beside what the others hold while
      decoding, or there is one expert layer. Otherwise the last layer of the prefill crowds out the others in a
      global cache, which a partitioned one does not allow. */
  lemma PrefilledCeilingNeedsRoom(c: Costs, unit: int, budget: int, nLayer: nat, order: seq<int>, k: nat, w: nat,
                                  held: nat, others: nat)
    requires order != [] && Distinct(order) && |order| <= nLayer && 0 < k <= w && budget >= 0 && Uniform(c, unit, order)
    requires held == Share(unit, budget, nLayer, k) && others == |order| - 1
    ensures PrefilledCeiling(c, budget, nLayer, order, k, w) <==> others == 0 || unit * (w + held * others) <= budget
  {
    RoomFor(unit, budget, w, held, others);
    if others > 0 && w + Times(held, others) > budget / unit {
      WideIsNotCovered(c, unit, budget, nLayer, order, k, w, held);
    } else {
      RoomIsEnough(c, unit, budget, nLayer, order, k, w);
    }
  }

  lemma RoomFor(unit: int, budget: int, w: nat, held: nat, n: nat)
    requires unit > 0
    ensures unit * (w + held * n) <= budget <==> w + Times(held, n) <= budget / unit
  {
    TimesIsProduct(held, n);
    FloorBound(unit, budget, w + Times(held, n));
  }

  lemma RoomIsEnough(c: Costs, unit: int, budget: int, nLayer: nat, order: seq<int>, k: nat, w: nat)
    requires order != [] && Distinct(order) && |order| <= nLayer && 0 < k <= w && budget >= 0 && Uniform(c, unit, order)
    requires |order| == 1 || w + Times(Share(unit, budget, nLayer, k), |order| - 1) <= budget / unit
    ensures PrefilledCeiling(c, budget, nLayer, order, k, w)
  {
    forall batches: seq<LayerBatch>, policy: Policy, belady: seq<set<Key>>, layered: seq<set<Key>>
      | IsPrefilled(order, k, w, batches) && policy.Partitioned()
      ensures Covered(c, budget, nLayer, batches, policy, belady, layered)
    {
      PrefilledIsCovered(c, unit, budget, nLayer, order, k, w, batches, policy, belady, layered);
    }
  }

  // ---- too little room ----

  lemma WideIsNotCovered(c: Costs, unit: int, budget: int, nLayer: nat, order: seq<int>, k: nat, w: nat, held: nat)
    requires Distinct(order) && 1 < |order| <= nLayer && 0 < k <= w && budget >= 0 && Uniform(c, unit, order)
    requires held == Share(unit, budget, nLayer, k) && w + Times(held, |order| - 1) > budget / unit
    ensures !PrefilledCeiling(c, budget, nLayer, order, k, w)
  {
    var v := Wide(order, k, w, held);
    ShareIsLess(unit, budget, nLayer, |order|, k, w, held);
    var belady := ReplayExists(Belady, c, budget, nLayer, v.Batches(), |v.Batches()|);
    var layered := ReplayExists(Layer, c, budget, nLayer, v.Batches(), |v.Batches()|);
    WidePasses(v, c, unit, budget, nLayer, Belady, belady, layered);
    WideIsPrefilled(v);
    assert !Covered(c, budget, nLayer, v.Batches(), Layer, belady, layered);
  }

  lemma WideIsPrefilled(v: Wide)
    requires v.Ok()
    ensures IsPrefilled(v.order, v.k, v.w, v.Batches())
  {
    WideIsShaped(v);
  }

  lemma ShareIsLess(unit: int, budget: int, nLayer: nat, n: nat, k: nat, w: nat, held: nat)
    requires unit > 0 && 1 < n <= nLayer && k <= w && budget >= 0
    requires held == Share(unit, budget, nLayer, k) && w + Times(held, n - 1) > budget / unit
    ensures held <= w
  {
    if held > w {
      SlicesFit(unit, budget, nLayer, n);
      FloorBound(unit, budget, Times(held, n));
    }
  }

  // ---- enough room ----

  lemma PrefilledIsCovered(c: Costs, unit: int, budget: int, nLayer: nat, order: seq<int>, k: nat, w: nat,
                           batches: seq<LayerBatch>, policy: Policy, belady: seq<set<Key>>, layered: seq<set<Key>>)
    requires order != [] && Distinct(order) && |order| <= nLayer && 0 < k <= w && budget >= 0 && Uniform(c, unit, order)
    requires |order| == 1 || w + Times(Share(unit, budget, nLayer, k), |order| - 1) <= budget / unit
    requires IsPrefilled(order, k, w, batches) && policy.Partitioned()
    ensures Covered(c, budget, nLayer, batches, policy, belady, layered)
  {
    if |order| == 1 {
      OneLayerIsCovered(c, unit, budget, nLayer, order, k, w, batches, policy, belady, layered);
    } else if Replays(Belady, c, budget, nLayer, batches, belady)
              && Replays(policy, c, budget, nLayer, batches, layered) {
      if |batches| <= |order| {
        OnePassNeverHits(c, budget, nLayer, order, batches, policy, layered);
      } else {
        TwoPasses(order, k, batches);
        DecodeIsCovered(c, unit, budget, nLayer, order, k, w, batches, policy, belady, layered);
      }
    }
  }

  lemma DecodeIsCovered(c: Costs, unit: int, budget: int, nLayer: nat, order: seq<int>, k: nat, w: nat,
                        batches: seq<LayerBatch>, policy: Policy, belady: seq<set<Key>>, layered: seq<set<Key>>)
    requires Distinct(order) && 1 < |order| <= nLayer && 0 < k <= w && budget >= 0 && Uniform(c, unit, order)
    requires w + Times(Share(unit, budget, nLayer, k), |order| - 1) <= budget / unit
    requires IsPrefilled(order, k, w, batches) && policy.Partitioned() && |batches| >= |order| + |order|
    requires Replays(Belady, c, budget, nLayer, batches, belady)
    requires Replays(policy, c, budget, nLayer, batches, layered)
    ensures var touched := TouchedSets(AllKeys(batches));
            Hits(touched, belady, |batches|) >= Hits(touched, layered, |batches|)
  {
    var d := DecodeOf(c, unit, budget, nLayer, order, k, w, batches, policy, layered);
    UniformLoads(c, unit, order, k, batches);
    ReplayIsBelady(c, budget, nLayer, batches, belady, unit);
    RoomyIsCovered(d, belady, budget, nLayer);
  }

  lemma RoomyIsCovered(d: Decode, belady: seq<set<Key>>, budget: int, nLayer: nat)
    requires d.Ok() && d.part == Slice(budget, nLayer) && budget >= 0 && 1 < d.M() <= nLayer
    requires d.w + Times(Share(d.unit, budget, nLayer, d.k), |d.order| - 1) <= budget / d.unit
    requires BeladyRun(d.touched, belady, budget / d.unit)
    ensures Hits(d.touched, belady, |d.touched|) >= Hits(d.touched, d.sched, |d.touched|)
  {
    DecodeFits(d, d.unit, budget, nLayer);
    TrimmedIsCovered(d, belady, budget / d.unit);
  }

  lemma TwoPasses(order: seq<int>, k: nat, batches: seq<LayerBatch>)
    requires order != [] && IsEngineTrace(order, k, batches) && |batches| > |order|
    ensures |batches| >= |order| + |order|
  {
    var tokens: nat :| |batches| == Start(|order|, tokens);
    assert Start(|order|, 1) == |order| && Start(|order|, 2) == 2 * |order|;
    if tokens >= 2 { StartGrows(|order|, 2, tokens); }
  }

  lemma UniformLoads(c: Costs, unit: int, order: seq<int>, k: nat, batches: seq<LayerBatch>)
    requires order != [] && Uniform(c, unit, order) && IsEngineTrace(order, k, batches)
    ensures UniformCost(c, batches, unit)
  {
    forall i | 0 <= i < |batches|
      ensures batches[i].layer in order
    {
      assert batches[i].layer == order[PosOf(|order|, i)];
    }
  }

  lemma OneLayerIsCovered(c: Costs, unit: int, budget: int, nLayer: nat, order: seq<int>, k: nat, w: nat,
                          batches: seq<LayerBatch>, policy: Policy, belady: seq<set<Key>>, layered: seq<set<Key>>)
    requires |order| == 1 <= nLayer && 0 < k <= w && budget >= 0 && Uniform(c, unit, order)
    requires IsPrefilled(order, k, w, batches) && policy.Partitioned()
    ensures Covered(c, budget, nLayer, batches, policy, belady, layered)
  {
    OneLayerLoads(c, unit, order, k, w, batches);
    LayersAreCovered(c, unit, budget, nLayer, {order[0]}, w, batches, policy, belady, layered);
  }

  lemma OneLayerLoads(c: Costs, unit: int, order: seq<int>, k: nat, w: nat, batches: seq<LayerBatch>)
    requires |order| == 1 && 0 < k <= w && Uniform(c, unit, order) && IsPrefilled(order, k, w, batches)
    ensures Loads(c, unit, {order[0]}, w, batches)
  {
    forall i | 0 <= i < |batches|
      ensures batches[i].layer == order[0] && |SetOf(KeysOf(batches[i]))| <= w
    {
      PrefilledLayer(order, k, w, batches, i);
      PrefilledWidth(order, k, w, batches, i);
    }
  }

  lemma PrefilledLayer(order: seq<int>, k: nat, w: nat, batches: seq<LayerBatch>, i: nat)
    requires |order| == 1 && IsPrefilled(order, k, w, batches) && i < |batches|
    ensures batches[i].layer == order[0]
  {
    assert PosOf(|order|, i) == 0;
  }

  lemma PrefilledWidth(order: seq<int>, k: nat, w: nat, batches: seq<LayerBatch>, i: nat)
    requires order != [] && IsPrefilled(order, k, w, batches) && i < |batches|
    ensures |SetOf(KeysOf(batches[i]))| <= if i < |order| then w else k
  {
    if i >= |order| {
      WidthOf(batches[i]);
    }
  }

  lemma WidthOf(b: LayerBatch)
    ensures |SetOf(KeysOf(b))| <= |b.ids|
  {
    SetOfSize(KeysOf(b));
  }

  lemma {:induction false} SetOfSize(keys: seq<Key>)
    ensures |SetOf(keys)| <= |keys|
  {
    if keys != [] {
      SetOfSize(keys[..|keys| - 1]);
    }
  }

  lemma OnePassNeverHits(c: Costs, budget: int, nLayer: nat, order: seq<int>, batches: seq<LayerBatch>, policy: Policy,
                         layered: seq<set<Key>>)
    requires order != [] && Distinct(order) && |batches| <= |order|
    requires forall i :: 0 <= i < |batches| ==> batches[i].layer == order[PosOf(|order|, i)]
    requires Replays(policy, c, budget, nLayer, batches, layered)
    ensures Hits(TouchedSets(AllKeys(batches)), layered, |batches|) == 0
  {
    DecodeHitsAreAllHits(policy, c, budget, nLayer, batches, layered, |batches|);
  }

  // ---- what is of use in a partitioned cache ----

  /** A partitioned run over a prefill and at least one token. */
  datatype Decode = Decode(c: Costs, unit: int, part: int, order: seq<int>, k: nat, w: nat, touched: seq<set<Key>>,
                           sched: seq<set<Key>>) {
    function M(): nat { |order| }

    function LayerAt(i: nat): int
      requires order != []
    {
      order[PosOf(|order|, i)]
    }

    function Held(): nat
      requires unit > 0
    {
      Max(part / unit, k)
    }

    ghost predicate Shape() {
      && order != [] && Distinct(order) && unit > 0 && 0 < k <= w
      && Starts(touched, sched) && |touched| >= M() + M()
    }

    ghost predicate Step(i: nat)
      requires Shape() && i < |touched|
    {
      && LayerStep(c, part, LayerAt(i), sched[i], touched[i], sched[i + 1])
      && |touched[i]| <= if i < M() then w else k
    }

    ghost predicate Priced(i: nat)
      requires Shape() && i <= |touched|
    {
      forall x :: x in sched[i] ==> c.Of(x) == unit && x.layer in order
    }

    ghost predicate Ok() {
      && Shape()
      && (forall i {:trigger Step(i)} :: 0 <= i < |touched| ==> Step(i))
      && (forall i {:trigger Priced(i)} :: 0 <= i <= |touched| ==> Priced(i))
    }
  }

  /** The batches of a layer in the first two passes. */
  lemma Passes(d: Decode, i: nat)
    requires d.Ok()
    ensures i < d.M() ==> d.LayerAt(i) == d.order[i]
    ensures d.M() <= i < d.M() + d.M() ==> d.LayerAt(i) == d.order[i - d.M()]
  {
    assert d.M() <= i < d.M() + d.M() ==> PosOf(d.M(), i - d.M()) == i - d.M();
  }

  lemma SameLayer(d: Decode, i: nat, l: int)
    requires d.Ok() && i < |d.touched| && l != d.LayerAt(i)
    ensures InLayer(d.sched[i + 1], l) == InLayer(d.sched[i], l)
  {
    assert d.Step(i);
  }

  /** Before its turn a layer holds nothing. */
  lemma {:induction false} NotYet(d: Decode, p: nat, n: nat)
    requires d.Ok() && p < d.M() && n <= p
    ensures InLayer(d.sched[n], d.order[p]) == {}
  {
    if n > 0 {
      NotYet(d, p, n - 1);
      SameLayer(d, n - 1, d.order[p]);
    }
  }

  /** Right after a batch, its layer holds no more than its share, or than the batch. */
  lemma JustServed(d: Decode, i: nat)
    requires d.Ok() && i < |d.touched|
    ensures |InLayer(d.sched[i + 1], d.LayerAt(i))| <= if i < d.M() then d.w else d.Held()
  {
    assert d.Step(i) && d.Priced(i + 1);
    var r := InLayer(d.sched[i + 1], d.LayerAt(i));
    if i < d.M() {
      NotYet(d, i, i);
      assert r <= InLayer(d.sched[i], d.LayerAt(i)) + d.touched[i];
      SubsetSize(r, d.touched[i]);
    } else if r != d.touched[i] {
      SumUniform(r, d.c, d.unit);
      FloorBound(d.unit, d.part, |r|);
    }
  }

  /** Once it has decoded, a layer holds no more than its share. */
  lemma {:induction false} Served(d: Decode, p: nat, n: nat)
    requires d.Ok() && p < d.M() && d.M() + p < n <= |d.touched|
    ensures |InLayer(d.sched[n], d.order[p])| <= d.Held()
    decreases n
  {
    if d.LayerAt(n - 1) == d.order[p] {
      JustServed(d, n - 1);
    } else {
      Passes(d, n - 1);
      SameLayer(d, n - 1, d.order[p]);
      Served(d, p, n - 1);
    }
  }

  /** What a layer holds is not changed by the batches of others. */
  lemma {:induction false} StaysThere(d: Decode, x: Key, a: nat, b: nat)
    requires d.Ok() && a <= b <= |d.touched| && forall i :: a <= i < b ==> d.LayerAt(i) != x.layer
    ensures x in d.sched[a] <==> x in d.sched[b]
    decreases b
  {
    if a < b {
      StaysThere(d, x, a, b - 1);
      assert d.Step(b - 1);
    }
  }

  /** The run without what the prefill brings in and the second pass drops unused. */
  ghost function Trim(d: Decode, i: nat): set<Key>
    requires d.Ok() && i <= |d.touched|
  {
    if i == 0 || i >= d.M() + d.M() then d.sched[i]
    else d.sched[i] * (d.sched[d.M() + d.M()] + d.touched[i - 1])
  }

  ghost function Trimmed(d: Decode): (sched: seq<set<Key>>)
    requires d.Ok()
    ensures |sched| == |d.touched| + 1 && forall i :: 0 <= i <= |d.touched| ==> sched[i] == Trim(d, i)
  {
    seq(|d.touched| + 1, i requires 0 <= i <= |d.touched| => Trim(d, i))
  }

  lemma TrimSteps(d: Decode, i: nat)
    requires d.Ok() && i < |d.touched|
    ensures d.touched[i] <= Trim(d, i + 1) <= Trim(d, i) + d.touched[i]
  {
    assert d.Step(i);
  }

  /** Of every layer but the last served, it holds a share at most. */
  lemma TrimmedShare(d: Decode, i: nat, p: nat)
    requires d.Ok() && i < |d.touched| && p < d.M()
    ensures |InLayer(Trim(d, i + 1), d.order[p])|
            <= if i < d.M() && d.order[p] == d.LayerAt(i) then d.w else d.Held()
  {
    var l, end := d.order[p], d.M() + d.M();
    if l == d.LayerAt(i) {
      JustServed(d, i);
      SubsetSize(InLayer(Trim(d, i + 1), l), InLayer(d.sched[i + 1], l));
    } else if i + 1 < end {
      assert d.Step(i);
      Served(d, p, end);
      SubsetSize(InLayer(Trim(d, i + 1), l), InLayer(d.sched[end], l));
    } else {
      Served(d, p, i + 1);
    }
  }

  /** So its size is that of one prefill batch and the shares of the others. */
  lemma TrimmedSize(d: Decode, i: nat)
    requires d.Ok() && i < |d.touched|
    ensures |Trim(d, i + 1)| <= Max(d.w, d.Held()) + Times(d.Held(), d.M() - 1)
  {
    var s, l, layers := Trim(d, i + 1), d.LayerAt(i), set x | x in d.order;
    var here := InLayer(s, l);
    assert d.Priced(i + 1);
    forall k | k in layers - {l}
      ensures |InLayer(s - here, k)| <= d.Held()
    {
      var p :| 0 <= p < d.M() && d.order[p] == k;
      TrimmedShare(d, i, p);
      assert InLayer(s - here, k) == InLayer(s, k);
    }
    SizeOverLayers(s - here, layers - {l}, d.Held());
    LayersOfOrder(d.order, layers);
    TrimmedShare(d, i, PosOf(d.M(), i));
    SplitSize(s, here);
    assert s * here == here;
  }

  lemma {:induction false} LayersOfOrder(order: seq<int>, layers: set<int>)
    requires Distinct(order) && layers == set x | x in order
    ensures |layers| == |order|
  {
    if order != [] {
      var n := |order| - 1;
      assert order == order[..n] + [order[n]];
      LayersOfOrder(order[..n], layers - {order[n]});
    }
  }

  /** It has the hits of the whole. */
  lemma TrimKeepsHits(d: Decode, i: nat)
    requires d.Ok() && i < |d.touched|
    ensures d.sched[i] * d.touched[i] <= Trim(d, i)
  {
    if i < d.M() { FirstPassMisses(d, i); }
    forall x | x in d.sched[i] * d.touched[i]
      ensures x in Trim(d, i)
    {
      if d.M() <= i < d.M() + d.M() {
        KeptToEnd(d, x, i);
      }
    }
  }

  lemma FirstPassMisses(d: Decode, i: nat)
    requires d.Ok() && i < d.M()
    ensures d.sched[i] * d.touched[i] == {}
  {
    assert d.Step(i);
    Passes(d, i);
    NotYet(d, i, i);
    assert d.sched[i] * d.touched[i] <= InLayer(d.sched[i], d.order[i]);
  }

  lemma KeptToEnd(d: Decode, x: Key, i: nat)
    requires d.Ok() && d.M() <= i < d.M() + d.M() && x in d.touched[i]
    ensures x in d.sched[d.M() + d.M()]
  {
    assert d.Step(i);
    Passes(d, i);
    forall j | i + 1 <= j < d.M() + d.M()
      ensures d.LayerAt(j) != x.layer
    {
      Passes(d, j);
    }
    StaysThere(d, x, i + 1, d.M() + d.M());
  }

  lemma {:induction false} TrimmedHits(d: Decode, n: nat)
    requires d.Ok() && n <= |d.touched|
    ensures Hits(d.touched, d.sched, n) <= Hits(d.touched, Trimmed(d), n)
  {
    if n > 0 {
      TrimmedHits(d, n - 1);
      TrimKeepsHits(d, n - 1);
      SubsetSize(d.sched[n - 1] * d.touched[n - 1], Trim(d, n - 1) * d.touched[n - 1]);
    }
  }

  /** Belady covers the trimmed run, which keeps to the room, and so the whole one. */
  lemma TrimmedIsCovered(d: Decode, belady: seq<set<Key>>, room: int)
    requires d.Ok() && BeladyRun(d.touched, belady, room)
    requires Max(d.w, d.Held()) + Times(d.Held(), d.M() - 1) <= room
    ensures Hits(d.touched, belady, |d.touched|) >= Hits(d.touched, d.sched, |d.touched|)
  {
    assert Trim(d, 0) == {};
    forall i | 0 <= i < |d.touched|
      ensures WithinRoom(Trim(d, i), d.touched[i], room, Trim(d, i + 1))
    {
      TrimSteps(d, i);
      TrimmedSize(d, i);
    }
    TrimmedHits(d, |d.touched|);
    BeladyIsOptimal(d.touched, belady, Trimmed(d), room, |d.touched|);
  }

  // ---- partitioned replays of engine traces are such runs ----

  lemma DecodeOf(c: Costs, unit: int, budget: int, nLayer: nat, order: seq<int>, k: nat, w: nat,
                 batches: seq<LayerBatch>, policy: Policy, sched: seq<set<Key>>) returns (d: Decode)
    requires order != [] && Distinct(order) && 0 < nLayer && 0 < k <= w && budget >= 0 && Uniform(c, unit, order)
    requires IsPrefilled(order, k, w, batches) && policy.Partitioned() && |batches| >= |order| + |order|
    requires Replays(policy, c, budget, nLayer, batches, sched)
    ensures d == Decode(c, unit, Slice(budget, nLayer), order, k, w, TouchedSets(AllKeys(batches)), sched) && d.Ok()
  {
    d := Decode(c, unit, Slice(budget, nLayer), order, k, w, TouchedSets(AllKeys(batches)), sched);
    forall i | 0 <= i < |batches|
      ensures d.Step(i)
    {
      StepIsDecode(d, c, unit, budget, nLayer, batches, policy, i);
    }
    forall i | 0 <= i <= |batches|
      ensures d.Priced(i)
    {
      UniformLoads(c, unit, order, k, batches);
      ResidentIsPriced(d, budget, nLayer, batches, policy, i);
    }
  }

  lemma StepIsDecode(d: Decode, c: Costs, unit: int, budget: int, nLayer: nat, batches: seq<LayerBatch>,
                     policy: Policy, i: nat)
    requires d.Shape() && nLayer > 0 && IsPrefilled(d.order, d.k, d.w, batches) && policy.Partitioned()
    requires d.touched == TouchedSets(AllKeys(batches)) && d.part == Slice(budget, nLayer) && d.c == c
    requires Replays(policy, c, budget, nLayer, batches, d.sched) && i < |batches|
    ensures d.Step(i)
  {
    ReplayIsLayered(c, budget, nLayer, batches, policy, d.sched);
    assert LayerStep(c, budget / nLayer, LayersOf(batches)[i], d.sched[i], d.touched[i], d.sched[i + 1]);
    PrefilledWidth(d.order, d.k, d.w, batches, i);
  }

  lemma ResidentIsPriced(d: Decode, budget: int, nLayer: nat, batches: seq<LayerBatch>, policy: Policy, n: nat)
    requires d.Shape() && UniformCost(d.c, batches, d.unit) && IsPrefilled(d.order, d.k, d.w, batches)
    requires n <= |batches| == |d.touched| && Replays(policy, d.c, budget, nLayer, batches, d.sched)
    ensures d.Priced(n)
  {
    ResidentCostUnit(policy, d.c, budget, nLayer, batches, d.sched, d.unit, n);
    ResidentIsOrdered(d.c, budget, nLayer, d.order, batches, policy, d.sched, n);
  }

  lemma {:induction false} ResidentIsOrdered(c: Costs, budget: int, nLayer: nat, order: seq<int>,
                                             batches: seq<LayerBatch>, policy: Policy, sched: seq<set<Key>>, n: nat)
    requires order != [] && n <= |batches| && Replays(policy, c, budget, nLayer, batches, sched)
    requires forall i :: 0 <= i < |batches| ==> batches[i].layer == order[PosOf(|order|, i)]
    ensures forall x :: x in sched[n] ==> x.layer in order
  {
    if n > 0 {
      ResidentIsOrdered(c, budget, nLayer, order, batches, policy, sched, n - 1);
      StepKeepsWithin(policy, c, budget, nLayer, batches, sched, n - 1);
      OfOneLayer(batches[n - 1]);
    }
  }

  lemma OfOneLayer(b: LayerBatch)
    ensures forall x :: x in SetOf(KeysOf(b)) ==> x.layer == b.layer
  {
  }

  /** A prefill no wider than a share fits anyway. */
  lemma DecodeFits(d: Decode, unit: int, budget: int, nLayer: nat)
    requires d.Shape() && d.unit == unit && d.part == Slice(budget, nLayer) && budget >= 0 && 1 < d.M() <= nLayer
    requires d.w + Times(Share(unit, budget, nLayer, d.k), |d.order| - 1) <= budget / unit
    ensures Max(d.w, d.Held()) + Times(d.Held(), d.M() - 1) <= budget / unit
  {
    assert d.Held() == Share(unit, budget, nLayer, d.k);
    if d.Held() > d.w {
      SlicesFit(unit, budget, nLayer, d.M());
      FloorBound(unit, budget, Times(d.Held(), d.M()));
    }
  }
}
