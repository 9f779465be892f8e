/** What each policy drops, told on the trace alone: which loads a dropped key has seen, and which the keys that were
    kept instead. */
module CacheOrder {
  import opened Basics
  import opened CacheTheory
  import opened CacheReplay
  import opened CacheSweep

  /** Batch j loads x. */
  predicate Loads(batches: seq<LayerBatch>, j: nat, x: Key)
    requires j < |batches|
  {
    x.layer == batches[j].layer && x.expert in batches[j].ids
  }

  /** How many of the batches up to i load x. */
  function LoadCount(batches: seq<LayerBatch>, i: nat, x: Key): nat
    requires i < |batches|
  {
    |set j | 0 <= j <= i && Loads(batches, j, x)|
  }

  /** The last time that x is listed, up to batch i: at place e of batch j. */
  ghost predicate LastListed(batches: seq<LayerBatch>, i: nat, x: Key, j: nat, e: nat)
    requires i < |batches|
  {
    && j <= i && e < |batches[j].ids| && x == Key(batches[j].layer, batches[j].ids[e])
    && (forall f :: e < f < |batches[j].ids| ==> batches[j].ids[f] != x.expert)
    && forall n :: j < n <= i ==> !Loads(batches, n, x)
  }

  /** Listed for the last time before, in the order of the trace. */
  ghost predicate ListedBefore(batches: seq<LayerBatch>, i: nat, x: Key, y: Key)
    requires i < |batches|
  {
    exists j, e, k, f ::
      LastListed(batches, i, x, j, e) && LastListed(batches, i, y, k, f) && (j < k || (j == k && e < f))
  }

  /** Needed no sooner: whenever x is loaded after batch i, y has been. */
  ghost predicate NeededAfter(batches: seq<LayerBatch>, i: nat, x: Key, y: Key)
    requires i < |batches|
  {
    forall n :: i < n < |batches| && Loads(batches, n, x) ==> exists k :: i < k <= n && Loads(batches, k, y)
  }

  /** The order of the six policies. */
  ghost predicate RightlyDropped(policy: Policy, batches: seq<LayerBatch>, i: nat, gone: Key, kept: Key)
    requires i < |batches|
  {
    match policy
    case Belady => NeededAfter(batches, i, gone, kept)
    case Lru => ListedBefore(batches, i, gone, kept)
    case Layer => ListedBefore(batches, i, gone, kept)
    case Lfu => LoadedLess(batches, i, gone, kept)
    case LayerLfu => LoadedLess(batches, i, gone, kept)
    case Random => true
  }

  ghost predicate LoadedLess(batches: seq<LayerBatch>, i: nat, x: Key, y: Key)
    requires i < |batches|
  {
    && LoadCount(batches, i, x) <= LoadCount(batches, i, y)
    && (LoadCount(batches, i, x) == LoadCount(batches, i, y) ==> ListedBefore(batches, i, x, y))
  }

  /** Every policy drops in its order: what is dropped at a batch goes before what the policy might have dropped
      instead and kept. A partitioned policy drops only what is of the layer it serves, and none drops what the
      batch loads. */
  lemma EvictsInOrder(policy: Policy, c: Costs, budget: int, nLayer: int, batches: seq<LayerBatch>,
                      sched: seq<set<Key>>, i: nat, gone: Key, kept: Key)
    requires Replays(policy, c, budget, nLayer, batches, sched) && i < |batches|
    requires gone in sched[i] && gone !in sched[i + 1]
    requires kept in sched[i + 1] && !Loads(batches, i, kept)
    requires policy in {Layer, LayerLfu} ==> kept.layer == batches[i].layer
    ensures !Loads(batches, i, gone) && (policy in {Layer, LayerLfu} ==> gone.layer == batches[i].layer)
    ensures RightlyDropped(policy, batches, i, gone, kept)
  {
    var keys := AllKeys(batches);
    LoadsAreTouched(batches, i, gone);
    LoadsAreTouched(batches, i, kept);
    StepKeepsWithin(policy, c, budget, nLayer, batches, sched, i);
    DroppedFirst(policy, c, budget, nLayer, batches, sched, i, gone, kept);
    ResidentWasListed(policy, c, budget, nLayer, batches, sched, i, gone);
    ResidentWasListed(policy, c, budget, nLayer, batches, sched, i, kept);
    TouchedTells(batches, gone);
    TouchedTells(batches, kept);
    if policy == Belady {
      NextIsNeeded(batches, TouchedSets(keys), i, gone, kept);
    } else if policy != Random {
      var j, e := ListedLast(batches, i, gone);
      var k, f := ListedLast(batches, i, kept);
      StampTells(batches, i, gone, j, e, kept, k, f);
      UsesAreLoads(batches, TouchedSets(keys), i, gone);
      UsesAreLoads(batches, TouchedSets(keys), i, kept);
    }
  }

  lemma LoadsAreTouched(batches: seq<LayerBatch>, i: nat, x: Key)
    requires i < |batches|
    ensures Loads(batches, i, x) <==> x in TouchedSets(AllKeys(batches))[i]
  {
    var keys := KeysOf(batches[i]);
    if Loads(batches, i, x) {
      var e :| 0 <= e < |batches[i].ids| && batches[i].ids[e] == x.expert;
      assert keys[e] == x;
    }
  }

  /** The sets of keys tell of x, at batch j, what the trace does. */
  ghost predicate Tells(batches: seq<LayerBatch>, touched: seq<set<Key>>, j: nat, x: Key)
    requires j < |batches| == |touched|
  {
    Loads(batches, j, x) <==> x in touched[j]
  }

  ghost predicate TellsAll(batches: seq<LayerBatch>, touched: seq<set<Key>>, x: Key) {
    |batches| == |touched|
    && forall j {:trigger Tells(batches, touched, j, x)} :: 0 <= j < |batches| ==> Tells(batches, touched, j, x)
  }

  lemma TouchedTells(batches: seq<LayerBatch>, x: Key)
    ensures TellsAll(batches, TouchedSets(AllKeys(batches)), x)
  {
    forall j | 0 <= j < |batches|
      ensures Tells(batches, TouchedSets(AllKeys(batches)), j, x)
    {
      LoadsAreTouched(batches, j, x);
    }
  }

  /** What the replay's step says of a dropped and a kept key. */
  lemma DroppedFirst(policy: Policy, c: Costs, budget: int, nLayer: int, batches: seq<LayerBatch>,
                     sched: seq<set<Key>>, i: nat, gone: Key, kept: Key)
    requires Replays(policy, c, budget, nLayer, batches, sched) && i < |batches|
    requires gone in sched[i] && gone !in sched[i + 1]
    requires kept in sched[i + 1] && kept !in TouchedSets(AllKeys(batches))[i]
    requires policy in {Layer, LayerLfu} ==> kept.layer == batches[i].layer
    ensures gone !in TouchedSets(AllKeys(batches))[i] && kept in sched[i] && gone != kept
    ensures policy in {Layer, LayerLfu} ==> gone.layer == batches[i].layer
    ensures GoesFirst(policy, TouchedSets(AllKeys(batches)), StampsAt(AllKeys(batches), i + 1).0, i, gone, kept)
  {
    StepOf(policy, c, budget, nLayer, batches, sched, i);
    assert Candidate(policy, batches[i].layer, kept);
    assert gone in sched[i] + TouchedSets(AllKeys(batches))[i] - sched[i + 1];
    assert Candidate(policy, batches[i].layer, gone);
  }

  // ---- how much is dropped ----

  /** What a policy holds against its room while it serves layer il: everything, or what is of that layer. */
  ghost predicate Holds(policy: Policy, il: int, held: set<Key>, mine: set<Key>) {
    forall x :: x in mine <==> x in held && (policy in {Layer, LayerLfu} ==> x.layer == il)
  }

  /** The room: the budget, or an equal share of it for each of the layers. */
  ghost predicate IsRoom(policy: Policy, budget: int, nLayer: int, room: int) {
    if policy in {Layer, LayerLfu} then
      var n := if nLayer < 1 then 1 else nLayer;
      n * room <= budget < n * (room + 1)
    else room == budget
  }

  /** Every policy drops to fit its room, and no further: what it holds after a batch fits, unless the batch loads
      all of it; and if anything was dropped, something that was would not have fitted beside it. */
  lemma DropsToFit(policy: Policy, c: Costs, budget: int, nLayer: int, batches: seq<LayerBatch>,
                   sched: seq<set<Key>>, i: nat, mine: set<Key>, room: int)
    requires Replays(policy, c, budget, nLayer, batches, sched) && i < |batches|
    requires Holds(policy, batches[i].layer, sched[i + 1], mine) && IsRoom(policy, budget, nLayer, room)
    ensures Sum(mine, c) <= room || forall x :: x in mine ==> Loads(batches, i, x)
    ensures sched[i] <= sched[i + 1] || exists w :: w in sched[i] - sched[i + 1] && Sum(mine + {w}, c) > room
  {
    var layer, now := batches[i].layer, sched[i + 1];
    StepOf(policy, c, budget, nLayer, batches, sched, i);
    RoomIsLimit(policy, budget, nLayer, room);
    assert Load(policy, c, layer, now) == Sum(mine, c) by {
      assert mine == if policy.Partitioned() then InLayer(now, layer) else now;
    }
    forall x | x in mine
      ensures Loads(batches, i, x) <==> x in TouchedSets(AllKeys(batches))[i]
    {
      LoadsAreTouched(batches, i, x);
    }
    if !(sched[i] <= now) {
      var w := LastDropped(policy, c, budget, nLayer, batches, sched, i, mine, room);
    }
  }

  lemma LastDropped(policy: Policy, c: Costs, budget: int, nLayer: int, batches: seq<LayerBatch>,
                    sched: seq<set<Key>>, i: nat, mine: set<Key>, room: int) returns (w: Key)
    requires Replays(policy, c, budget, nLayer, batches, sched) && i < |batches| && !(sched[i] <= sched[i + 1])
    requires Holds(policy, batches[i].layer, sched[i + 1], mine) && room == LimitOf(policy, budget, nLayer)
    ensures w in sched[i] - sched[i + 1] && Sum(mine + {w}, c) > room
  {
    var layer, now, touched, keys := batches[i].layer, sched[i + 1], TouchedSets(AllKeys(batches)), AllKeys(batches);
    StepOf(policy, c, budget, nLayer, batches, sched, i);
    w :| LastDrop(policy, c, room, layer, touched, StampsAt(keys, i + 1).0, i, sched[i] + touched[i], now, w);
    assert Candidate(policy, layer, w);
    assert mine + {w} == if policy.Partitioned() then InLayer(now + {w}, layer) else now + {w};
  }

  lemma RoomIsLimit(policy: Policy, budget: int, nLayer: int, room: int)
    requires IsRoom(policy, budget, nLayer, room)
    ensures room == LimitOf(policy, budget, nLayer)
  {
    if policy.Partitioned() {
      var n := if nLayer < 1 then 1 else nLayer;
      FloorBound(n, budget, room);
      FloorBound(n, budget, room + 1);
    }
  }

  // ---- next uses ----

  lemma NextIsNeeded(batches: seq<LayerBatch>, touched: seq<set<Key>>, i: nat, gone: Key, kept: Key)
    requires i < |batches| && TellsAll(batches, touched, gone) && TellsAll(batches, touched, kept)
    requires NextFrom(touched, kept, i + 1) <= NextFrom(touched, gone, i + 1)
    ensures NeededAfter(batches, i, gone, kept)
  {
    var k := NextFrom(touched, kept, i + 1);
    NextFromIsFirst(touched, gone, i + 1);
    NextFromIsFirst(touched, kept, i + 1);
    forall n | i < n < |batches| && Loads(batches, n, gone)
      ensures i < k <= n && Loads(batches, k, kept)
    {
      assert Tells(batches, touched, n, gone);
      assert k <= n;
      assert Tells(batches, touched, k, kept);
    }
  }

  // ---- counts ----

  lemma UsesAreLoads(batches: seq<LayerBatch>, touched: seq<set<Key>>, i: nat, x: Key)
    requires i < |batches| && TellsAll(batches, touched, x)
    ensures Uses(touched, x, i + 1) == LoadCount(batches, i, x)
  {
    UsesAreMany(touched, x, i + 1);
    forall j | 0 <= j <= i
      ensures Loads(batches, j, x) <==> x in touched[j]
    {
      assert Tells(batches, touched, j, x);
    }
    assert (set j | 0 <= j <= i && Loads(batches, j, x)) == set j | 0 <= j < i + 1 && x in touched[j];
  }

  lemma {:induction false} UsesAreMany(touched: seq<set<Key>>, x: Key, n: nat)
    requires n <= |touched|
    ensures Uses(touched, x, n) == |set j | 0 <= j < n && x in touched[j]|
  {
    if n > 0 {
      UsesAreMany(touched, x, n - 1);
      var before, now := set j | 0 <= j < n - 1 && x in touched[j], set j | 0 <= j < n && x in touched[j];
      if x in touched[n - 1] {
        assert now == before + {n - 1};
      } else {
        assert now == before;
      }
    }
  }

  // ---- stamps ----

  /** What is resident before a batch was listed earlier. */
  lemma ResidentWasListed(policy: Policy, c: Costs, budget: int, nLayer: int, batches: seq<LayerBatch>,
                          sched: seq<set<Key>>, i: nat, x: Key)
    requires Replays(policy, c, budget, nLayer, batches, sched) && i < |batches| && x in sched[i]
    ensures exists j :: 0 <= j < i && Loads(batches, j, x)
  {
    var touched := TouchedSets(AllKeys(batches));
    forall n | 0 <= n < |batches|
      ensures sched[n + 1] <= sched[n] + touched[n]
    {
      StepKeepsWithin(policy, c, budget, nLayer, batches, sched, n);
    }
    FromTouched(touched, sched, i);
    var j :| 0 <= j < i && x in touched[j];
    LoadsAreTouched(batches, j, x);
  }

  lemma {:induction false} ListedLast(batches: seq<LayerBatch>, i: nat, x: Key) returns (j: nat, e: nat)
    requires i < |batches| && exists j :: 0 <= j <= i && Loads(batches, j, x)
    ensures LastListed(batches, i, x, j, e)
  {
    if Loads(batches, i, x) {
      j := i;
      e := LastPlace(batches[i].ids, x.expert, |batches[i].ids|);
      assert x == Key(batches[i].layer, batches[i].ids[e]);
    } else {
      j, e := ListedLast(batches, i - 1, x);
    }
  }

  lemma {:induction false} LastPlace(ids: seq<int>, expert: int, n: nat) returns (e: nat)
    requires n <= |ids| && expert in ids[..n]
    ensures e < n && ids[e] == expert && forall f :: e < f < n ==> ids[f] != expert
  {
    if ids[n - 1] == expert {
      e := n - 1;
    } else {
      assert ids[..n] == ids[..n - 1] + [ids[n - 1]];
      e := LastPlace(ids, expert, n - 1);
    }
  }

  /** A key's stamp is the clock at the batch that listed it last, and its place there. */
  lemma StampIs(batches: seq<LayerBatch>, keys: seq<seq<Key>>, i: nat, x: Key, j: nat, e: nat)
    requires i < |batches| && LastListed(batches, i, x, j, e) && keys == AllKeys(batches)
    ensures StampOf(StampsAt(keys, i + 1).0, x) == StampsAt(keys, j).1 + e + 1
  {
    NotListedSince(batches, keys, i, x, j, e);
    StampKept(keys, x, j + 1, i + 1);
    assert keys[j] == KeysOf(batches[j]);
    StampedLast(StampsAt(keys, j).0, StampsAt(keys, j).1, keys[j], e);
  }

  lemma NotListedSince(batches: seq<LayerBatch>, keys: seq<seq<Key>>, i: nat, x: Key, j: nat, e: nat)
    requires i < |batches| && LastListed(batches, i, x, j, e) && keys == AllKeys(batches)
    ensures forall n :: j + 1 <= n < i + 1 ==> x !in SetOf(keys[n])
  {
    forall n | j + 1 <= n < i + 1
      ensures x !in SetOf(keys[n])
    {
      LoadsAreTouched(batches, n, x);
    }
  }

  lemma {:induction false} StampedLast(last: map<Key, int>, clock: int, keys: seq<Key>, j: nat)
    requires j < |keys| && forall n :: j < n < |keys| ==> keys[n] != keys[j]
    ensures keys[j] in Stamped(last, clock, keys) && Stamped(last, clock, keys)[keys[j]] == clock + j + 1
  {
    if j < |keys| - 1 {
      StampedLast(last, clock, keys[..|keys| - 1], j);
    }
  }

  lemma {:induction false} StampKept(keys: seq<seq<Key>>, x: Key, j: nat, n: nat)
    requires j <= n <= |keys| && forall i :: j <= i < n ==> x !in SetOf(keys[i])
    ensures StampOf(StampsAt(keys, n).0, x) == StampOf(StampsAt(keys, j).0, x)
    decreases n
  {
    if j < n {
      StampKept(keys, x, j, n - 1);
      StampedNewer(StampsAt(keys, n - 1).0, StampsAt(keys, n - 1).1, keys[n - 1]);
    }
  }

  lemma {:induction false} ClockGrows(keys: seq<seq<Key>>, j: nat, k: nat)
    requires j < k <= |keys|
    ensures StampsAt(keys, j).1 + |keys[j]| <= StampsAt(keys, k).1
    decreases k
  {
    if j < k - 1 {
      ClockGrows(keys, j, k - 1);
    }
  }

  /** So the older of two stamps was listed before. */
  lemma StampTells(batches: seq<LayerBatch>, i: nat, x: Key, j: nat, e: nat, y: Key, k: nat, f: nat)
    requires i < |batches| && LastListed(batches, i, x, j, e) && LastListed(batches, i, y, k, f) && x != y
    ensures var last := StampsAt(AllKeys(batches), i + 1).0;
            StampOf(last, x) <= StampOf(last, y) ==> ListedBefore(batches, i, x, y)
  {
    var keys := AllKeys(batches);
    StampIs(batches, keys, i, x, j, e);
    StampIs(batches, keys, i, y, k, f);
    if k < j {
      ClockGrows(keys, k, j);
    }
  }
}
