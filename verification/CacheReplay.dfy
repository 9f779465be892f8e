/** What the policies of the cache simulator do, as schedules in the sense of `CacheTheory`: the order in
    which each of them evicts, what one batch and a whole replay are, and which rules of the theory a
    replay follows. */
module CacheReplay {
  import opened Basics
  import opened CacheTheory

  datatype Policy = Belady | Lru | Lfu | Random | Layer | LayerLfu {
    predicate Partitioned() { Layer? || LayerLfu? }
  }

  /** One load of a layer: the expert ids that it asks for, in order, with duplicates. */
  datatype LayerBatch = LayerBatch(layer: int, ids: seq<int>)

  /** The script packs a key into one integer and gets the layer back by division. */
  function Packed(key: Key, nExpert: nat): int { key.layer * nExpert + key.expert }

  /** The packing loses nothing, as long as the expert ids are in range. */
  lemma PackingIsExact(key: Key, nExpert: nat)
    requires 0 <= key.expert < nExpert
    ensures Key(Packed(key, nExpert) / nExpert, Packed(key, nExpert) % nExpert) == key
  {
    var q, r := Packed(key, nExpert) / nExpert, Packed(key, nExpert) % nExpert;
    assert Packed(key, nExpert) == nExpert * q + r && 0 <= r < nExpert;
    if q < key.layer { MulStrict(q, key.layer, nExpert); } else if key.layer < q { MulStrict(key.layer, q, nExpert); }
  }

  lemma {:induction false} MulStrict(a: int, b: int, n: int)
    requires n > 0 && a < b
    ensures a * n + n <= b * n
    decreases b - a
  {
    if a + 1 < b {
      MulStrict(a, b - 1, n);
      assert (b - 1) * n + n == b * n;
    } else {
      assert (a + 1) * n == a * n + n;
    }
  }

  function KeysOf(b: LayerBatch): (keys: seq<Key>)
    ensures |keys| == |b.ids| && forall k :: 0 <= k < |keys| ==> keys[k] == Key(b.layer, b.ids[k])
  {
    seq(|b.ids|, k requires 0 <= k < |b.ids| => Key(b.layer, b.ids[k]))
  }

  function AllKeys(batches: seq<LayerBatch>): (keys: seq<seq<Key>>)
    ensures |keys| == |batches| && forall i :: 0 <= i < |keys| ==> keys[i] == KeysOf(batches[i])
  {
    seq(|batches|, i requires 0 <= i < |batches| => KeysOf(batches[i]))
  }

  // ---- the lookahead ----

  /** The batches that touch x, in order. */
  function Occurrences(touched: seq<set<Key>>, x: Key, n: nat): seq<int>
    requires n <= |touched|
  {
    if n == 0 then [] else Occurrences(touched, x, n - 1) + if x in touched[n - 1] then [n - 1] else []
  }

  lemma {:induction false} OccurrencesAreAll(touched: seq<set<Key>>, x: Key, n: nat)
    requires n <= |touched|
    ensures Lists(Occurrences(touched, x, n), touched, x, n)
  {
    if n > 0 {
      OccurrencesAreAll(touched, x, n - 1);
      OneMoreListed(Occurrences(touched, x, n - 1), touched, x, n);
    }
  }

  /** The first n batches that touch x, once each and in order. */
  ghost predicate Lists(occ: seq<int>, touched: seq<set<Key>>, x: Key, n: nat)
    requires n <= |touched|
  {
    && (forall k :: 0 <= k < |occ| ==> 0 <= occ[k] < n && x in touched[occ[k]])
    && (forall j, k :: 0 <= j < k < |occ| ==> occ[j] < occ[k])
    && (forall i :: 0 <= i < n && x in touched[i] ==> i in occ)
  }

  lemma OneMoreListed(occ: seq<int>, touched: seq<set<Key>>, x: Key, n: nat)
    requires 0 < n <= |touched| && Lists(occ, touched, x, n - 1)
    ensures Lists(occ + if x in touched[n - 1] then [n - 1] else [], touched, x, n)
  {
  }

  /** The lookahead table after n batches: every batch is recorded once for each of its keys. */
  function OccurrenceMap(keys: seq<seq<Key>>, n: nat): map<Key, seq<int>>
    requires n <= |keys|
  {
    if n == 0 then map[] else Recorded(OccurrenceMap(keys, n - 1), keys[n - 1], n - 1)
  }

  function Recorded(occ: map<Key, seq<int>>, keys: seq<Key>, bi: int): map<Key, seq<int>> {
    if keys == [] then occ else
      var rest, x := keys[..|keys| - 1], keys[|keys| - 1];
      var o := Recorded(occ, rest, bi);
      if x in SetOf(rest) then o else o[x := OccIn(o, x) + [bi]]
  }

  function OccIn(occ: map<Key, seq<int>>, x: Key): seq<int> {
    if x in occ then occ[x] else []
  }

  function FreqIn(freq: map<Key, int>, x: Key): int { if x in freq then freq[x] else 0 }

  function StampOf(last: map<Key, int>, x: Key): int { if x in last then last[x] else 0 }

  lemma {:induction false} RecordedOnce(occ: map<Key, seq<int>>, keys: seq<Key>, bi: int, x: Key)
    ensures OccIn(Recorded(occ, keys, bi), x) == if x in SetOf(keys) then OccIn(occ, x) + [bi] else OccIn(occ, x)
  {
    if keys != [] {
      RecordedOnce(occ, keys[..|keys| - 1], bi, x);
    }
  }

  lemma {:induction false} TableIsOccurrences(keys: seq<seq<Key>>, touched: seq<set<Key>>, x: Key, n: nat)
    requires n <= |keys| == |touched| && forall i :: 0 <= i < |keys| ==> touched[i] == SetOf(keys[i])
    ensures OccIn(OccurrenceMap(keys, n), x) == Occurrences(touched, x, n)
  {
    if n > 0 {
      TableIsOccurrences(keys, touched, x, n - 1);
      RecordedOnce(OccurrenceMap(keys, n - 1), keys[n - 1], n - 1, x);
      assert x in touched[n - 1] <==> x in SetOf(keys[n - 1]);
    }
  }

  /** bisect_right: where t would be inserted, after any entries equal to it. */
  function BisectRight(occ: seq<int>, t: int): (p: nat)
    ensures p <= |occ|
    ensures forall k :: 0 <= k < p ==> occ[k] <= t
    ensures p < |occ| ==> occ[p] > t
  {
    if occ == [] || occ[0] > t then 0 else 1 + BisectRight(occ[1..], t)
  }

  /** The bisected lookup is the next use. "Never again" is the number of batches, past every index. */
  lemma LookupIsNextUse(touched: seq<set<Key>>, x: Key, t: nat)
    requires t < |touched|
    ensures var occ := Occurrences(touched, x, |touched|);
            var p := BisectRight(occ, t);
            NextFrom(touched, x, t + 1) == if p < |occ| then occ[p] else |touched|
  {
    OccurrencesAreAll(touched, x, |touched|);
    FirstListedAfter(Occurrences(touched, x, |touched|), touched, x, t);
  }

  lemma FirstListedAfter(occ: seq<int>, touched: seq<set<Key>>, x: Key, t: nat)
    requires t < |touched| && Lists(occ, touched, x, |touched|)
    ensures var p := BisectRight(occ, t); NextFrom(touched, x, t + 1) == if p < |occ| then occ[p] else |touched|
  {
    var p, n := BisectRight(occ, t), NextFrom(touched, x, t + 1);
    NextFromIsFirst(touched, x, t + 1);
    if n < |touched| {
      var q :| 0 <= q < |occ| && occ[q] == n;
      assert q >= p;
    }
  }

  // ---- what a replay is, as a schedule ----

  /** How many of the first n batches touched x. */
  function Uses(touched: seq<set<Key>>, x: Key, n: nat): nat
    requires n <= |touched|
  {
    |Occurrences(touched, x, n)|
  }

  /** The order of eviction at batch i, told on the batches: v goes before x, or ties with it. `last` holds
      the recency stamps with the batch already in them. */
  predicate GoesFirst(policy: Policy, touched: seq<set<Key>>, last: map<Key, int>, i: nat, v: Key, x: Key)
    requires i < |touched|
  {
    match policy
    case Random => true
    case Belady => NextFrom(touched, x, i + 1) <= NextFrom(touched, v, i + 1)
    case Lru => StampOf(last, v) <= StampOf(last, x)
    case Layer => StampOf(last, v) <= StampOf(last, x)
    case Lfu => RarerOrOlder(touched, last, i, v, x)
    case LayerLfu => RarerOrOlder(touched, last, i, v, x)
  }

  predicate RarerOrOlder(touched: seq<set<Key>>, last: map<Key, int>, i: nat, v: Key, x: Key)
    requires i < |touched|
  {
    || Uses(touched, v, i + 1) < Uses(touched, x, i + 1)
    || (Uses(touched, v, i + 1) == Uses(touched, x, i + 1) && StampOf(last, v) <= StampOf(last, x))
  }

  /** A key that the policy may drop while it serves layer il. */
  predicate Candidate(policy: Policy, il: int, x: Key) {
    policy.Partitioned() ==> x.layer == il
  }

  /** The bytes that the policy compares with its limit while it serves layer il. */
  ghost function Load(policy: Policy, c: Costs, il: int, r: set<Key>): int {
    if policy.Partitioned() then Sum(InLayer(r, il), c) else Sum(r, c)
  }

  function Slice(budget: int, nLayer: int): int {
    budget / Max(1, nLayer)
  }

  function LimitOf(policy: Policy, budget: int, nLayer: int): int {
    if policy.Partitioned() then Slice(budget, nLayer) else budget
  }

  /** The i-th batch of a replay. What is touched stays; what is dropped is what the policy may drop,
      before everything that it might have dropped and kept; the last drop was from a cache over the
      limit; and the result is within the limit unless nothing was left to drop. */
  ghost predicate ReplayStep(policy: Policy, c: Costs, budget: int, nLayer: int, layer: int, touched: seq<set<Key>>,
                             last: map<Key, int>, r: set<Key>, i: nat, r': set<Key>)
    requires i < |touched|
  {
    var t, s, limit := touched[i], r + touched[i], LimitOf(policy, budget, nLayer);
    && t <= r' <= s
    && (forall gone :: gone in s - r' ==> Candidate(policy, layer, gone))
    && (forall kept, gone :: kept in r' - t && gone in s - r' && Candidate(policy, layer, kept) ==>
          GoesFirst(policy, touched, last, i, gone, kept))
    && (r' == s || exists w :: LastDrop(policy, c, limit, layer, touched, last, i, s, r', w))
    && (Load(policy, c, layer, r') <= limit || forall x :: x in r' && Candidate(policy, layer, x) ==> x in t)
  }

  /** w was the last of s to be dropped, and the cache was over the limit with it. */
  ghost predicate LastDrop(policy: Policy, c: Costs, limit: int, layer: int, touched: seq<set<Key>>,
                           last: map<Key, int>,
                           i: nat, s: set<Key>, r': set<Key>, w: Key)
    requires i < |touched|
  {
    && w in s - r' && Load(policy, c, layer, r' + {w}) > limit
    && forall u :: u in s - r' ==> GoesFirst(policy, touched, last, i, u, w)
  }

  ghost predicate StepAt(policy: Policy, c: Costs, budget: int, nLayer: int, batches: seq<LayerBatch>,
                         sched: seq<set<Key>>, i: nat)
    requires i < |batches| && i + 1 < |sched|
  {
    var keys := AllKeys(batches);
    ReplayStep(policy, c, budget, nLayer, batches[i].layer, TouchedSets(keys), StampsAt(keys, i + 1).0,
               sched[i], i, sched[i + 1])
  }

  ghost predicate ReplaysTo(policy: Policy, c: Costs, budget: int, nLayer: int, batches: seq<LayerBatch>,
                            sched: seq<set<Key>>, n: nat)
    requires n <= |batches|
  {
    && |sched| == n + 1 && sched[0] == {}
    && forall i {:trigger StepAt(policy, c, budget, nLayer, batches, sched, i)} :: 0 <= i < n ==>
         StepAt(policy, c, budget, nLayer, batches, sched, i)
  }

  /** A whole replay: every batch is a step of its policy, from an empty cache. */
  ghost predicate Replays(policy: Policy, c: Costs, budget: int, nLayer: int, batches: seq<LayerBatch>,
                          sched: seq<set<Key>>) {
    ReplaysTo(policy, c, budget, nLayer, batches, sched, |batches|)
  }

  lemma ExtendReplay(policy: Policy, c: Costs, budget: int, nLayer: int, batches: seq<LayerBatch>, sched: seq<set<Key>>,
                     n: nat, r': set<Key>)
    requires n < |batches| && ReplaysTo(policy, c, budget, nLayer, batches, sched, n)
    requires var keys := AllKeys(batches);
             ReplayStep(policy, c, budget, nLayer, batches[n].layer, TouchedSets(keys), StampsAt(keys, n + 1).0,
                        sched[n], n, r')
    ensures ReplaysTo(policy, c, budget, nLayer, batches, sched + [r'], n + 1)
  {
    Appended(sched, r');
    OldStepsStay(policy, c, budget, nLayer, batches, sched, sched + [r'], n);
    NewStep(policy, c, budget, nLayer, batches, sched + [r'], n, sched[n], r');
  }

  lemma OldStepsStay(policy: Policy, c: Costs, budget: int, nLayer: int, batches: seq<LayerBatch>, sched: seq<set<Key>>,
                     s: seq<set<Key>>, n: nat)
    requires n < |batches| && ReplaysTo(policy, c, budget, nLayer, batches, sched, n)
    requires |s| == n + 2 && forall i :: 0 <= i < |sched| ==> s[i] == sched[i]
    ensures forall i {:trigger StepAt(policy, c, budget, nLayer, batches, s, i)} :: 0 <= i < n ==>
              StepAt(policy, c, budget, nLayer, batches, s, i)
  {
    forall i | 0 <= i < n
      ensures StepAt(policy, c, budget, nLayer, batches, s, i)
    {
      assert StepAt(policy, c, budget, nLayer, batches, sched, i);
      SameStep(policy, c, budget, nLayer, batches, sched, s, i);
    }
  }

  lemma Appended(sched: seq<set<Key>>, r': set<Key>)
    ensures forall i :: 0 <= i < |sched| ==> (sched + [r'])[i] == sched[i]
    ensures (sched + [r'])[|sched|] == r'
  {
  }

  lemma NewStep(policy: Policy, c: Costs, budget: int, nLayer: int, batches: seq<LayerBatch>, s: seq<set<Key>>, n: nat,
                r: set<Key>, r': set<Key>)
    requires n < |batches| && n + 1 < |s| && s[n] == r && s[n + 1] == r'
    requires var keys := AllKeys(batches);
             ReplayStep(policy, c, budget, nLayer, batches[n].layer, TouchedSets(keys), StampsAt(keys, n + 1).0,
                        r, n, r')
    ensures StepAt(policy, c, budget, nLayer, batches, s, n)
  {
  }

  lemma SameStep(policy: Policy, c: Costs, budget: int, nLayer: int, batches: seq<LayerBatch>, sched: seq<set<Key>>,
                 s: seq<set<Key>>, i: nat)
    requires i < |batches| && i + 1 < |sched| && i + 1 < |s| && s[i] == sched[i] && s[i + 1] == sched[i + 1]
    requires StepAt(policy, c, budget, nLayer, batches, sched, i)
    ensures StepAt(policy, c, budget, nLayer, batches, s, i)
  {
  }

  lemma StepOf(policy: Policy, c: Costs, budget: int, nLayer: int, batches: seq<LayerBatch>, sched: seq<set<Key>>,
               i: nat)
    requires Replays(policy, c, budget, nLayer, batches, sched) && i < |batches|
    ensures var keys := AllKeys(batches);
            ReplayStep(policy, c, budget, nLayer, batches[i].layer, TouchedSets(keys), StampsAt(keys, i + 1).0,
                       sched[i], i, sched[i + 1])
  {
    assert StepAt(policy, c, budget, nLayer, batches, sched, i);
  }

  // ---- which rules of the theory a step follows ----

  lemma StepKeepsBudget(policy: Policy, c: Costs, budget: int, nLayer: int, layer: int, touched: seq<set<Key>>,
                        last: map<Key, int>, r: set<Key>, i: nat, r': set<Key>)
    requires i < |touched| && !policy.Partitioned()
    requires ReplayStep(policy, c, budget, nLayer, layer, touched, last, r, i, r')
    ensures BudgetStep(c, budget, r, touched[i], r')
  {
    var s := r + touched[i];
    if r' != s {
      var w :| LastDrop(policy, c, budget, layer, touched, last, i, s, r', w);
      assert Sum(r' + {w}, c) > budget;
    }
    if Sum(r', c) > budget {
      assert forall x :: x in r' ==> Candidate(policy, layer, x);
      assert r' == touched[i];
    }
  }

  lemma StepDropsFurthest(c: Costs, budget: int, nLayer: int, layer: int, touched: seq<set<Key>>,
                          last: map<Key, int>, r: set<Key>, i: nat, r': set<Key>)
    requires i < |touched| && ReplayStep(Belady, c, budget, nLayer, layer, touched, last, r, i, r')
    ensures DropsFurthest(touched, i, r, r')
  {
    forall kept, gone | kept in r' - touched[i] && gone in r + touched[i] - r'
      ensures NextFrom(touched, kept, i + 1) <= NextFrom(touched, gone, i + 1)
    {
      assert Candidate(Belady, layer, kept);
      assert GoesFirst(Belady, touched, last, i, gone, kept);
    }
  }

  lemma StepDropsOldest(c: Costs, budget: int, nLayer: int, layer: int, touched: seq<set<Key>>,
                        last: map<Key, int>, r: set<Key>, i: nat, r': set<Key>)
    requires i < |touched| && ReplayStep(Lru, c, budget, nLayer, layer, touched, last, r, i, r')
    requires r + touched[i] <= last.Keys
    requires forall x, y :: x in last && y in last && last[x] == last[y] ==> x == y
    ensures LruStep(c, budget, last, r, touched[i], r')
  {
    var s := r + touched[i];
    StepKeepsBudget(Lru, c, budget, nLayer, layer, touched, last, r, i, r');
    forall kept, gone | kept in r' - touched[i] && gone in s - r'
      ensures last[gone] < last[kept]
    {
      assert Candidate(Lru, layer, kept);
      assert GoesFirst(Lru, touched, last, i, gone, kept);
    }
    if r' != s {
      var w :| LastDrop(Lru, c, budget, layer, touched, last, i, s, r', w);
      assert Sum(r' + {w}, c) > budget;
      forall u | u in s - r'
        ensures last[u] <= last[w]
      {
        assert GoesFirst(Lru, touched, last, i, u, w);
      }
    }
  }

  lemma StepKeepsLayer(policy: Policy, c: Costs, budget: int, nLayer: int, layer: int, touched: seq<set<Key>>,
                       last: map<Key, int>, r: set<Key>, i: nat, r': set<Key>)
    requires i < |touched| && policy.Partitioned() && forall x :: x in touched[i] ==> x.layer == layer
    requires ReplayStep(policy, c, budget, nLayer, layer, touched, last, r, i, r')
    ensures LayerStep(c, Slice(budget, nLayer), layer, r, touched[i], r')
  {
    forall gone | gone in r + touched[i] - r'
      ensures gone.layer == layer
    {
      assert Candidate(policy, layer, gone);
    }
    assert touched[i] <= InLayer(r', layer);
  }

  lemma {:induction false} StampsAtStamps(keys: seq<seq<Key>>, n: nat)
    requires n <= |keys|
    ensures var (last, clock) := StampsAt(keys, n); Stamps(last, clock)
  {
    if n > 0 {
      StampsAtStamps(keys, n - 1);
      var (last, clock) := StampsAt(keys, n - 1);
      StampedStays(last, clock, keys[n - 1]);
    }
  }

  // ---- evicting, one key at a time ----

  /** What the policy's order of eviction depends on, at one moment, as the simulator keeps it. */
  datatype Ranking = Ranking(policy: Policy, freq: map<Key, int>, occ: map<Key, seq<int>>, never: int, batchIdx: int) {
    function FreqOf(i: Key): int { FreqIn(freq, i) }

    function NextUse(i: Key): int {
      var occurrences := OccIn(occ, i);
      var p := BisectRight(occurrences, batchIdx);
      if p < |occurrences| then occurrences[p] else never
    }

    /** v goes before x, or ties with it; the stamps are those of the last touches. */
    predicate Before(v: Key, x: Key, stampV: int, stampX: int) {
      match policy
      case Random => true
      case Belady => NextUse(x) <= NextUse(v)
      case Lru => stampV <= stampX
      case Layer => stampV <= stampX
      case Lfu => FreqOf(v) < FreqOf(x) || (FreqOf(v) == FreqOf(x) && stampV <= stampX)
      case LayerLfu => FreqOf(v) < FreqOf(x) || (FreqOf(v) == FreqOf(x) && stampV <= stampX)
    }

    predicate Precedes(last: map<Key, int>, v: Key, x: Key) {
      Before(v, x, StampOf(last, v), StampOf(last, x))
    }

    /** The order is total, and the least seen so far stays least when it is replaced. */
    lemma PrecedesIsAnOrder(last: map<Key, int>, x: Key, best: Key, y: Key)
      ensures Precedes(last, x, x)
      ensures Precedes(last, best, x) || Precedes(last, x, best)
      ensures Precedes(last, x, best) && Precedes(last, best, y) ==> Precedes(last, x, y)
    {
    }

    /** The tables say what they should of the batches, at batch i. */
    ghost predicate Tells(keys: seq<seq<Key>>, touched: seq<set<Key>>, i: nat)
      requires i < |touched| == |keys|
    {
      && (policy == Belady ==> batchIdx == i && never == |keys| && occ == OccurrenceMap(keys, |keys|))
      && FreqTells(freq, touched, i + 1)
    }
  }

  /** Every key's frequency is the number of batches so far that touched it. */
  ghost predicate FreqTells(freq: map<Key, int>, touched: seq<set<Key>>, n: nat)
    requires n <= |touched|
  {
    forall x: Key {:trigger FreqIn(freq, x)} {:trigger Uses(touched, x, n)} :: FreqIn(freq, x) == Uses(touched, x, n)
  }

  /** Part of an eviction: s has been cut down to r while t is protected, in the policy's order, and the
      last drop was from a cache that was over the limit. */
  ghost predicate SoFar(k: Ranking, last: map<Key, int>, c: Costs, limit: int, s: set<Key>, t: set<Key>, il: int,
                        r: set<Key>) {
    && t <= r <= s
    && (forall gone :: gone in s - r ==> Candidate(k.policy, il, gone))
    && (forall kept, gone :: kept in r - t && gone in s - r && Candidate(k.policy, il, kept) ==>
          k.Precedes(last, gone, kept))
    && (r == s || exists w :: DroppedLast(k, last, c, limit, s, il, r, w))
  }

  ghost predicate DroppedLast(k: Ranking, last: map<Key, int>, c: Costs, limit: int, s: set<Key>, il: int, r: set<Key>,
                              w: Key) {
    w in s - r && Load(k.policy, c, il, r + {w}) > limit && forall u :: u in s - r ==> k.Precedes(last, u, w)
  }

  /** The outcome of a whole eviction. */
  ghost predicate Evicted(k: Ranking, last: map<Key, int>, c: Costs, limit: int, s: set<Key>, t: set<Key>, il: int,
                          r: set<Key>) {
    && SoFar(k, last, c, limit, s, t, il, r)
    && (Load(k.policy, c, il, r) <= limit || forall x :: x in r && Candidate(k.policy, il, x) ==> x in t)
  }

  lemma OneMoreDrop(k: Ranking, last: map<Key, int>, c: Costs, limit: int, s: set<Key>, t: set<Key>, il: int,
                    r: set<Key>, v: Key)
    requires SoFar(k, last, c, limit, s, t, il, r)
    requires v in r - t && Candidate(k.policy, il, v)
    requires forall x :: x in r - t && Candidate(k.policy, il, x) ==> k.Precedes(last, v, x)
    requires Load(k.policy, c, il, r) > limit
    ensures SoFar(k, last, c, limit, s, t, il, r - {v})
  {
    var r' := r - {v};
    assert r' + {v} == r;
    k.PrecedesIsAnOrder(last, v, v, v);
    forall u | u in s - r'
      ensures Candidate(k.policy, il, u) && k.Precedes(last, u, v)
    {
      assert u == v || u in s - r;
    }
    forall kept, gone | kept in r' - t && gone in s - r' && Candidate(k.policy, il, kept)
      ensures k.Precedes(last, gone, kept)
    {
      assert gone == v || gone in s - r;
    }
    assert DroppedLast(k, last, c, limit, s, il, r', v);
  }

  /** The simulator's order is the order told on the batches. */
  lemma RankingTells(k: Ranking, keys: seq<seq<Key>>, touched: seq<set<Key>>, last: map<Key, int>, i: nat, v: Key,
                     x: Key)
    requires i < |keys| == |touched| && forall j :: 0 <= j < |keys| ==> touched[j] == SetOf(keys[j])
    requires k.Tells(keys, touched, i)
    ensures k.Precedes(last, v, x) <==> GoesFirst(k.policy, touched, last, i, v, x)
  {
    if k.policy == Belady {
      NextUseLooksAhead(k, keys, touched, i, v);
      NextUseLooksAhead(k, keys, touched, i, x);
    } else {
      assert FreqIn(k.freq, v) == Uses(touched, v, i + 1) && FreqIn(k.freq, x) == Uses(touched, x, i + 1);
    }
  }

  lemma NextUseLooksAhead(k: Ranking, keys: seq<seq<Key>>, touched: seq<set<Key>>, i: nat, x: Key)
    requires i < |keys| == |touched| && forall j :: 0 <= j < |keys| ==> touched[j] == SetOf(keys[j])
    requires k.batchIdx == i && k.never == |keys| && k.occ == OccurrenceMap(keys, |keys|)
    ensures k.NextUse(x) == NextFrom(touched, x, i + 1)
  {
    TableIsOccurrences(keys, touched, x, |keys|);
    LookupIsNextUse(touched, x, i);
  }

  /** An eviction in the simulator's order is a step of the schedule that the policy stands for. */
  lemma EvictionReplays(k: Ranking, c: Costs, budget: int, nLayer: int, layer: int, keys: seq<seq<Key>>,
                        touched: seq<set<Key>>,
                        i: nat, last: map<Key, int>, r: set<Key>, r': set<Key>)
    requires i < |keys| == |touched| && forall j :: 0 <= j < |keys| ==> touched[j] == SetOf(keys[j])
    requires k.Tells(keys, touched, i)
    requires Evicted(k, last, c, LimitOf(k.policy, budget, nLayer), r + touched[i], touched[i], layer, r')
    ensures ReplayStep(k.policy, c, budget, nLayer, layer, touched, last, r, i, r')
  {
    var t, s, limit := touched[i], r + touched[i], LimitOf(k.policy, budget, nLayer);
    forall kept, gone | kept in r' - t && gone in s - r' && Candidate(k.policy, layer, kept)
      ensures GoesFirst(k.policy, touched, last, i, gone, kept)
    {
      RankingTells(k, keys, touched, last, i, gone, kept);
    }
    if r' != s {
      var w :| DroppedLast(k, last, c, limit, s, layer, r', w);
      forall u | u in s - r'
        ensures GoesFirst(k.policy, touched, last, i, u, w)
      {
        RankingTells(k, keys, touched, last, i, u, w);
      }
      assert LastDrop(k.policy, c, limit, layer, touched, last, i, s, r', w);
    }
  }

  // ---- every policy has a replay ----

  lemma {:induction false} Least(k: Ranking, last: map<Key, int>, pool: set<Key>) returns (v: Key)
    requires pool != {}
    ensures v in pool && forall x :: x in pool ==> k.Precedes(last, v, x)
    decreases pool
  {
    v := Pick(pool);
    k.PrecedesIsAnOrder(last, v, v, v);
    if pool != {v} {
      var u := Least(k, last, pool - {v});
      var least := if k.Precedes(last, v, u) then v else u;
      forall x | x in pool
        ensures k.Precedes(last, least, x)
      {
        k.PrecedesIsAnOrder(last, v, u, x);
      }
      v := least;
    }
  }

  lemma {:induction false} EvictionExists(k: Ranking, last: map<Key, int>, c: Costs, limit: int, s: set<Key>,
                                          t: set<Key>,
                                          il: int, now: set<Key>) returns (r: set<Key>)
    requires SoFar(k, last, c, limit, s, t, il, now)
    ensures Evicted(k, last, c, limit, s, t, il, r)
    decreases now
  {
    var pool := set x | x in now - t && Candidate(k.policy, il, x);
    if Load(k.policy, c, il, now) <= limit || pool == {} {
      r := now;
      assert forall x :: x in now && x !in t && Candidate(k.policy, il, x) ==> x in pool;
    } else {
      var v := Least(k, last, pool);
      OneMoreDrop(k, last, c, limit, s, t, il, now, v);
      r := EvictionExists(k, last, c, limit, s, t, il, now - {v});
    }
  }

  /** The frequencies after n batches. */
  function FreqAt(keys: seq<seq<Key>>, n: nat): map<Key, int>
    requires n <= |keys|
  {
    var occ := OccurrenceMap(keys, n);
    map x | x in occ :: |occ[x]|
  }

  lemma FreqAtTells(keys: seq<seq<Key>>, touched: seq<set<Key>>, n: nat)
    requires n <= |keys| == |touched| && forall i :: 0 <= i < |keys| ==> touched[i] == SetOf(keys[i])
    ensures FreqTells(FreqAt(keys, n), touched, n)
  {
    forall x: Key
      ensures FreqIn(FreqAt(keys, n), x) == Uses(touched, x, n)
    {
      TableIsOccurrences(keys, touched, x, n);
    }
  }

  /** Every trace has a replay under every policy, so that what is proved of all replays is not empty. */
  lemma {:induction false} ReplayExists(policy: Policy, c: Costs, budget: int, nLayer: int, batches: seq<LayerBatch>,
                                        n: nat)
    returns (sched: seq<set<Key>>)
    requires n <= |batches|
    ensures ReplaysTo(policy, c, budget, nLayer, batches, sched, n)
  {
    if n == 0 {
      sched := [{}];
    } else {
      var before := ReplayExists(policy, c, budget, nLayer, batches, n - 1);
      var r' := StepExists(policy, c, budget, nLayer, batches, n - 1, before[n - 1]);
      ExtendReplay(policy, c, budget, nLayer, batches, before, n - 1, r');
      sched := before + [r'];
    }
  }

  lemma StepExists(policy: Policy, c: Costs, budget: int, nLayer: int, batches: seq<LayerBatch>, i: nat, r: set<Key>)
    returns (r': set<Key>)
    requires i < |batches|
    ensures var keys := AllKeys(batches);
            ReplayStep(policy, c, budget, nLayer, batches[i].layer, TouchedSets(keys), StampsAt(keys, i + 1).0,
                       r, i, r')
  {
    var keys := AllKeys(batches);
    var touched, last := TouchedSets(keys), StampsAt(keys, i + 1).0;
    var k := Ranking(policy, FreqAt(keys, i + 1), OccurrenceMap(keys, |keys|), |keys|, i);
    FreqAtTells(keys, touched, i + 1);
    var s := r + touched[i];
    r' := EvictionExists(k, last, c, LimitOf(policy, budget, nLayer), s, touched[i], batches[i].layer, s);
    EvictionReplays(k, c, budget, nLayer, batches[i].layer, keys, touched, i, last, r, r');
  }
}
