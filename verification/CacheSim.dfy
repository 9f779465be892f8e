/** The offline cache simulator: a byte-budgeted cache over (layer, expert) keys that replays a
    recorded sequence of batches under one of six policies. Its runs are schedules in the sense of
    `CacheTheory`, and its counters are the ones that the theorems speak of. */
module CacheSim {
  import opened Wrappers
  import opened Basics
  import opened CacheTheory
  import opened CacheReplay

  // ---- the books of one batch ----

  /** What a batch advances before it evicts: the counters, the frequencies and the stamps. */
  datatype Books = Books(lookups: int, hits: int, decLookups: int, decHits: int, readBytes: int,
                         freq: map<Key, int>, last: map<Key, int>, clock: int)

  function CountedOnly(b: Books, i: Key, hit: bool, decode: bool): Books {
    b.(lookups := b.lookups + 1, hits := b.hits + (if hit then 1 else 0),
       decLookups := b.decLookups + (if decode then 1 else 0), decHits := b.decHits + (if decode && hit then 1 else 0),
       freq := b.freq[i := FreqIn(b.freq, i) + 1])
  }

  function Promoted(b: Books, i: Key): Books {
    b.(clock := b.clock + 1, last := b.last[i := b.clock + 1])
  }

  /** One lookup, on the books. */
  function LookedUp(c: Costs, b: Books, i: Key, hit: bool, decode: bool): Books {
    var counted := CountedOnly(b, i, hit, decode);
    Promoted(if hit then counted else counted.(readBytes := b.readBytes + c.Of(i)), i)
  }

  function TouchedBooks(c: Costs, b: Books, i: Key, seen: bool, hit: bool, decode: bool): Books {
    if seen then Promoted(b, i) else LookedUp(c, b, i, hit, decode)
  }

  /** The books after touching `keys`, in order, in a cache that held r0. */
  function BooksAfter(c: Costs, from: Books, keys: seq<Key>, r0: set<Key>, decode: bool): Books {
    if keys == [] then from else
      var rest, i := keys[..|keys| - 1], keys[|keys| - 1];
      TouchedBooks(c, BooksAfter(c, from, rest, r0, decode), i, i in SetOf(rest), i in r0, decode)
  }

  /** What the books say: every distinct key is one lookup, a hit if the cache held it before the
      batch and a read of its cost otherwise. */
  lemma {:induction false} BooksMean(c: Costs, from: Books, keys: seq<Key>, r0: set<Key>, decode: bool)
    ensures BooksSay(c, from, BooksAfter(c, from, keys, r0, decode), SetOf(keys), r0, decode)
  {
    if keys == [] {
      assert SetOf(keys) - r0 == {};
    } else {
      var rest, i := keys[..|keys| - 1], keys[|keys| - 1];
      BooksMean(c, from, rest, r0, decode);
      BooksStep(c, from, BooksAfter(c, from, rest, r0, decode), SetOf(rest), i, r0, decode);
    }
  }

  lemma {:induction false} BooksStamp(c: Costs, from: Books, keys: seq<Key>, r0: set<Key>, decode: bool)
    ensures var b := BooksAfter(c, from, keys, r0, decode);
            b.last == Stamped(from.last, from.clock, keys) && b.clock == from.clock + |keys|
  {
    if keys != [] {
      var rest, i := keys[..|keys| - 1], keys[|keys| - 1];
      BooksStamp(c, from, rest, r0, decode);
      TouchStamps(c, BooksAfter(c, from, rest, r0, decode), i, i in SetOf(rest), i in r0, decode);
    }
  }

  /** However a key is touched, it becomes the newest. */
  lemma TouchStamps(c: Costs, b: Books, i: Key, seen: bool, hit: bool, decode: bool)
    ensures var b' := TouchedBooks(c, b, i, seen, hit, decode);
            b'.last == b.last[i := b.clock + 1] && b'.clock == b.clock + 1
  {
  }

  ghost predicate BooksSay(c: Costs, from: Books, b: Books, t: set<Key>, r0: set<Key>, decode: bool) {
    && b.lookups == from.lookups + |t| && b.hits == from.hits + |r0 * t|
    && b.decLookups == from.decLookups + (if decode then |t| else 0)
    && b.decHits == from.decHits + (if decode then |r0 * t| else 0)
    && b.readBytes == from.readBytes + Sum(t - r0, c)
    && forall x :: FreqIn(b.freq, x) == FreqIn(from.freq, x) + if x in t then 1 else 0
  }

  lemma BooksStep(c: Costs, from: Books, b: Books, t: set<Key>, i: Key, r0: set<Key>, decode: bool)
    requires BooksSay(c, from, b, t, r0, decode)
    ensures BooksSay(c, from, TouchedBooks(c, b, i, i in t, i in r0, decode), t + {i}, r0, decode)
  {
    if i in t {
      assert t + {i} == t;
    } else {
      var b' := LookedUp(c, b, i, i in r0, decode);
      OneMoreKey(c, t, r0, i);
      forall x
        ensures FreqIn(b'.freq, x) == FreqIn(from.freq, x) + if x in t + {i} then 1 else 0
      {
        assert FreqIn(b.freq, x) == FreqIn(from.freq, x) + if x in t then 1 else 0;
      }
    }
  }

  lemma OneMoreKey(c: Costs, t: set<Key>, r0: set<Key>, i: Key)
    requires i !in t
    ensures |t + {i}| == |t| + 1
    ensures |r0 * (t + {i})| == |r0 * t| + if i in r0 then 1 else 0
    ensures Sum(t + {i} - r0, c) == Sum(t - r0, c) + if i in r0 then 0 else c.Of(i)
  {
    if i in r0 {
      assert r0 * (t + {i}) == r0 * t + {i};
      assert t + {i} - r0 == t - r0;
    } else {
      assert r0 * (t + {i}) == r0 * t;
      assert t + {i} - r0 == (t - r0) + {i};
      SumAdd(t - r0, c, i);
    }
  }

  lemma SnocAt(c: Costs, from: Books, keys: seq<Key>, r0: set<Key>, decode: bool, j: nat)
    requires j < |keys|
    ensures SetOf(keys[..j + 1]) == SetOf(keys[..j]) + {keys[j]}
    ensures BooksAfter(c, from, keys[..j + 1], r0, decode)
            == TouchedBooks(c, BooksAfter(c, from, keys[..j], r0, decode), keys[j], keys[j] in SetOf(keys[..j]),
                            keys[j] in r0, decode)
  {
    assert keys[..j + 1][..j] == keys[..j];
  }

  // ---- the counters of a whole replay ----

  /** Every batch looks up each of its keys once. */
  function Lookups(touched: seq<set<Key>>, n: nat): nat
    requires n <= |touched|
  {
    if n == 0 then 0 else Lookups(touched, n - 1) + |touched[n - 1]|
  }

  /** It reads those that it does not find. */
  ghost function Reads(c: Costs, touched: seq<set<Key>>, sched: seq<set<Key>>, n: nat): int
    requires n <= |touched| && n <= |sched|
  {
    if n == 0 then 0 else Reads(c, touched, sched, n - 1) + Sum(touched[n - 1] - sched[n - 1], c)
  }

  /** The counters after n batches, the first nPrefill of which are not counted as decode. */
  ghost predicate Counts(c: Costs, b: Books, touched: seq<set<Key>>, sched: seq<set<Key>>, nPrefill: nat, n: nat)
    requires n <= |touched| && n <= |sched|
  {
    && b.hits == Hits(touched, sched, n)
    && b.decHits == b.hits - Hits(touched, sched, Min(nPrefill, n))
    && b.lookups == Lookups(touched, n)
    && b.decLookups == b.lookups - Lookups(touched, Min(nPrefill, n))
    && b.readBytes == Reads(c, touched, sched, n)
  }

  lemma {:induction false} ReadsPrefix(c: Costs, touched: seq<set<Key>>, sched: seq<set<Key>>, more: seq<set<Key>>,
                                       n: nat)
    requires n <= |touched| && n <= |sched|
    ensures Reads(c, touched, sched + more, n) == Reads(c, touched, sched, n)
  {
    if n > 0 {
      ReadsPrefix(c, touched, sched, more, n - 1);
    }
  }

  class Sim {
    const policy: Policy
    const budget: int
    const c: Costs
    const nLayer: int
    const part: int

    var resident: map<Key, int>
    var bytesUsed: int
    var order: map<Key, int>
    var freq: map<Key, int>
    var clock: int
    var lookups: int
    var hits: int
    var readBytes: int
    var decLookups: int
    var decHits: int
    var layerBytes: map<int, int>
    var occ: map<Key, seq<int>>
    var never: int
    var batchIdx: int

    /** The recency stamps of everything ever touched; `order` forgets a key when it is dropped. */
    ghost var last: map<Key, int>
    ghost var droppedBytes: int

    constructor (policy: Policy, budget: int, c: Costs, nLayer: int)
      ensures Fresh()
      ensures this.policy == policy && this.budget == budget && this.nLayer == nLayer
      ensures this.part == Slice(budget, nLayer)
      ensures this.c == c
    {
      this.policy, this.budget, this.nLayer, this.part := policy, budget, nLayer, Slice(budget, nLayer);
      this.c := c;
      resident, bytesUsed, order, freq, clock := map[], 0, map[], map[], 0;
      lookups, hits, readBytes, decLookups, decHits := 0, 0, 0, 0, 0;
      layerBytes, occ, never, batchIdx := map[], map[], 0, 0;
      last, droppedBytes := map[], 0;
      new;
      forall l: int
        ensures InLayer(resident.Keys, l) == {}
      {
      }
    }

    function LayerUsed(l: int): int
      reads this`layerBytes
    {
      if l in layerBytes then layerBytes[l] else 0
    }

    function Rank(): Ranking
      reads this`freq, this`occ, this`never, this`batchIdx
    {
      Ranking(policy, freq, occ, never, batchIdx)
    }

    function Limit(): int { if policy.Partitioned() then part else budget }

    /** What is compared with the limit while layer il is served. */
    ghost function Used(il: int): int
      reads this`resident
    {
      Load(policy, c, il, resident.Keys)
    }

    /** Conservation: every byte counter is the sum that it stands for. */
    ghost predicate Accounts()
      reads this`resident, this`bytesUsed, this`layerBytes, this`readBytes, this`droppedBytes
    {
      && (forall i :: i in resident ==> i.layer in c.bytes && resident[i] == c.Of(i))
      && bytesUsed == Sum(resident.Keys, c)
      && (forall l {:trigger LayerUsed(l)} :: LayerUsed(l) == Sum(InLayer(resident.Keys, l), c))
      && readBytes - droppedBytes == bytesUsed
    }

    ghost predicate Valid()
      reads this
    {
      && Accounts()
      && order.Keys == resident.Keys
      && (forall i :: i in order ==> i in last && order[i] == last[i])
    }

    /** An id to evict, or None if nothing evictable remains: the least in the policy's order, ties
        broken by whatever order the dictionary is walked in. */
    method Victim(protected: set<Key>, il: int) returns (v: Option<Key>)
      requires Valid()
      ensures var pool := Pool(protected, il);
              && (v.None? <==> pool == {})
              && (v.Some? ==> v.value in pool)
      ensures v.Some? ==>
                forall x :: x in resident.Keys - protected && Candidate(policy, il, x) ==>
                  Rank().Precedes(last, v.value, x)
    {
      var pool := Pool(protected, il);
      if pool == {} { return None; }
      assert Pick(pool) in pool;
      var best :| best in pool;
      if policy == Random { return Some(best); }
      var rest := pool - {best};
      while rest != {}
        invariant rest <= pool && best in pool
        invariant forall y :: y in pool && y !in rest ==> Rank().Precedes(last, best, y)
      {
        assert Pick(rest) in rest;
        var x :| x in rest;
        var least := if Rank().Before(best, x, order[best], order[x]) then best else x;
        forall y | y in pool && (y !in rest || y == x)
          ensures Rank().Precedes(last, least, y)
        {
          Rank().PrecedesIsAnOrder(last, x, best, y);
        }
        best, rest := least, rest - {x};
      }
      v := Some(best);
    }

    function Pool(protected: set<Key>, il: int): set<Key>
      reads this
    {
      set i | i in resident.Keys - protected && Candidate(policy, il, i)
    }

    method Drop(i: Key)
      requires Valid() && i in resident
      modifies this`resident, this`bytesUsed, this`layerBytes, this`order, this`droppedBytes
      ensures Valid() && resident == old(resident) - {i}
      ensures droppedBytes == old(droppedBytes) + c.Of(i)
    {
      var b := resident[i];
      var l := i.layer;
      LayerWithout(resident.Keys, c, i);
      resident := resident - {i};
      bytesUsed := bytesUsed - b;
      layerBytes := layerBytes[l := LayerUsed(l) - b];
      order := order - {i};
      droppedBytes := droppedBytes + b;
      assert resident.Keys == old(resident.Keys) - {i};
      forall k
        ensures LayerUsed(k) == Sum(InLayer(resident.Keys, k), c)
      {
        assert old(LayerUsed(k)) == Sum(InLayer(old(resident.Keys), k), c);
      }
    }

    method EvictToBudget(protected: set<Key>, il: int)
      requires Valid() && protected <= resident.Keys
      modifies this`resident, this`bytesUsed, this`layerBytes, this`order, this`droppedBytes
      ensures Valid() && Evicted(Rank(), last, c, Limit(), old(resident.Keys), protected, il, resident.Keys)
    {
      if policy.Partitioned() {
        EvictToSlice(protected, il);
      } else {
        EvictGlobally(protected, il);
      }
    }

    /** Drop the next victim, if there is one. */
    method DropOne(protected: set<Key>, il: int, ghost s: set<Key>) returns (dropped: bool)
      requires Valid() && SoFar(Rank(), last, c, Limit(), s, protected, il, resident.Keys)
      requires Used(il) > Limit()
      modifies this`resident, this`bytesUsed, this`layerBytes, this`order, this`droppedBytes
      ensures Valid() && SoFar(Rank(), last, c, Limit(), s, protected, il, resident.Keys)
      ensures dropped ==> resident.Keys < old(resident.Keys)
      ensures !dropped ==> forall x :: x in resident && Candidate(policy, il, x) ==> x in protected
    {
      var v := Victim(protected, il);
      if v == None {
        EmptyPool(protected, il);
        return false;
      }
      OneMoreDrop(Rank(), last, c, Limit(), s, protected, il, resident.Keys, v.value);
      Drop(v.value);
      dropped := true;
    }

    method EvictToSlice(protected: set<Key>, il: int)
      requires Valid() && protected <= resident.Keys && policy.Partitioned()
      modifies this`resident, this`bytesUsed, this`layerBytes, this`order, this`droppedBytes
      ensures Valid() && Evicted(Rank(), last, c, Limit(), old(resident.Keys), protected, il, resident.Keys)
    {
      while LayerUsed(il) > part
        invariant Valid() && SoFar(Rank(), last, c, Limit(), old(resident.Keys), protected, il, resident.Keys)
        decreases resident.Keys
      {
        var dropped := DropOne(protected, il, old(resident.Keys));
        if !dropped { return; }
      }
    }

    method EvictGlobally(protected: set<Key>, il: int)
      requires Valid() && protected <= resident.Keys && !policy.Partitioned()
      modifies this`resident, this`bytesUsed, this`layerBytes, this`order, this`droppedBytes
      ensures Valid() && Evicted(Rank(), last, c, Limit(), old(resident.Keys), protected, il, resident.Keys)
    {
      while bytesUsed > budget
        invariant Valid() && SoFar(Rank(), last, c, Limit(), old(resident.Keys), protected, il, resident.Keys)
        decreases resident.Keys
      {
        var dropped := DropOne(protected, il, old(resident.Keys));
        if !dropped { return; }
      }
    }

    lemma EmptyPool(protected: set<Key>, il: int)
      requires Pool(protected, il) == {}
      ensures forall x :: x in resident && Candidate(policy, il, x) ==> x in protected
    {
      forall x | x in resident && Candidate(policy, il, x)
        ensures x in protected
      {
        assert x in Pool(protected, il) || x in protected;
      }
    }

    // ---- one batch ----

    ghost function Now(): Books
      reads this`lookups, this`hits, this`decLookups, this`decHits, this`readBytes, this`freq, this`last, this`clock
    {
      Books(lookups, hits, decLookups, decHits, readBytes, freq, last, clock)
    }

    /** The first touch of a key in a batch: one lookup, and on a miss the key becomes resident at its
        layer's cost. A layer without a cost cannot be sized, and ends the replay. */
    method Lookup(il: int, i: Key, decode: bool) returns (ok: bool)
      requires Valid() && i.layer == il
      modifies this`resident, this`bytesUsed, this`layerBytes, this`readBytes, this`lookups, this`hits
      modifies this`decLookups, this`decHits, this`freq, this`clock, this`order, this`last
      ensures ok <==> il in c.bytes
      ensures ok ==> Valid() && resident.Keys == old(resident.Keys) + {i}
      ensures ok ==> Now() == LookedUp(c, old(Now()), i, i in old(resident), decode)
    {
      Count(i, decode);
      if i in resident {
        assert resident.Keys + {i} == resident.Keys;
      } else {
        if il !in c.bytes { return false; }
        Admit(i, c.bytes[il]);
      }
      Promote(i);
      ok := true;
    }

    /** One id of a batch: a duplicate is promoted and not counted. */
    method Touch(il: int, i: Key, decode: bool, seen: set<Key>, ghost r0: set<Key>) returns (ok: bool)
      requires Valid() && i.layer == il && resident.Keys == r0 + seen
      modifies this`resident, this`bytesUsed, this`layerBytes, this`readBytes, this`lookups, this`hits
      modifies this`decLookups, this`decHits, this`freq, this`clock, this`order, this`last
      ensures ok <==> i in seen || il in c.bytes
      ensures ok ==> Valid() && resident.Keys == r0 + (seen + {i})
      ensures ok ==> Now() == TouchedBooks(c, old(Now()), i, i in seen, i in r0, decode)
    {
      if i in seen {
        assert resident.Keys + {i} == resident.Keys && seen + {i} == seen;
        Promote(i);
        ok := true;
      } else {
        ok := Lookup(il, i, decode);
      }
    }

    method Count(i: Key, decode: bool)
      modifies this`lookups, this`hits, this`decLookups, this`decHits, this`freq
      ensures Now() == CountedOnly(old(Now()), i, i in resident, decode)
    {
      lookups := lookups + 1;
      if decode { decLookups := decLookups + 1; }
      if i in resident {
        hits := hits + 1;
        if decode { decHits := decHits + 1; }
      }
      freq := freq[i := FreqIn(freq, i) + 1];
    }

    /** Make a resident key the most recent one. */
    method Promote(i: Key)
      requires Accounts() && i in resident && order.Keys + {i} == resident.Keys
      requires forall x :: x in order ==> x in last && order[x] == last[x]
      modifies this`clock, this`order, this`last
      ensures Valid() && Now() == Promoted(old(Now()), i)
    {
      clock := clock + 1;
      order := order[i := clock];
      last := last[i := clock];
      assert order.Keys == old(order).Keys + {i};
    }

    method Admit(i: Key, cost: int)
      requires Accounts() && i !in resident && i.layer in c.bytes && cost == c.Of(i)
      modifies this`resident, this`bytesUsed, this`layerBytes, this`readBytes
      ensures Accounts() && resident.Keys == old(resident.Keys) + {i}
      ensures Now() == old(Now()).(readBytes := old(readBytes) + cost)
    {
      var l := i.layer;
      var grown := resident[i := cost];
      assert grown.Keys == resident.Keys + {i} && grown.Keys - {i} == resident.Keys;
      LayerWithout(grown.Keys, c, i);
      resident := grown;
      bytesUsed := bytesUsed + cost;
      layerBytes := layerBytes[l := LayerUsed(l) + cost];
      readBytes := readBytes + cost;
      forall k
        ensures LayerUsed(k) == Sum(InLayer(resident.Keys, k), c)
      {
        assert old(LayerUsed(k)) == Sum(InLayer(old(resident.Keys), k), c);
      }
    }

    /** Touch the ids of a batch, in order; a duplicate is promoted and not counted. */
    method TouchAll(b: LayerBatch, decode: bool) returns (ok: bool, seen: set<Key>)
      requires Valid()
      modifies this`resident, this`bytesUsed, this`layerBytes, this`readBytes, this`lookups, this`hits
      modifies this`decLookups, this`decHits, this`freq, this`clock, this`order, this`last
      ensures ok <==> b.ids == [] || b.layer in c.bytes
      ensures ok ==> Valid() && seen == SetOf(KeysOf(b)) && resident.Keys == old(resident.Keys) + seen
      ensures ok ==> Now() == BooksAfter(c, old(Now()), KeysOf(b), old(resident.Keys), decode)
    {
      ghost var r0, from, keys := resident.Keys, Now(), KeysOf(b);
      seen := {};
      var j := 0;
      while j < |b.ids|
        invariant 0 <= j <= |b.ids| && Valid()
        invariant j > 0 ==> b.layer in c.bytes
        invariant seen == SetOf(keys[..j]) && resident.Keys == r0 + seen
        invariant Now() == BooksAfter(c, from, keys[..j], r0, decode)
      {
        var i := Key(b.layer, b.ids[j]);
        assert i == keys[j];
        SnocAt(c, from, keys, r0, decode, j);
        var sized := Touch(b.layer, i, decode, seen, r0);
        if !sized { return false, seen; }
        seen := seen + {i};
        j := j + 1;
      }
      assert keys[..j] == keys;
      ok := true;
    }

    method Batch(b: LayerBatch, decode: bool) returns (ok: bool)
      requires Valid()
      modifies this`resident, this`bytesUsed, this`layerBytes, this`readBytes, this`lookups, this`hits
      modifies this`decLookups, this`decHits, this`freq, this`clock, this`order, this`last, this`droppedBytes
      ensures ok <==> b.ids == [] || b.layer in c.bytes
      ensures ok ==> Valid() && Now() == BooksAfter(c, old(Now()), KeysOf(b), old(resident.Keys), decode)
      ensures ok ==>
                var t := SetOf(KeysOf(b));
                Evicted(Rank(), last, c, Limit(), old(resident.Keys) + t, t, b.layer, resident.Keys)
    {
      var touched;
      ok, touched := TouchAll(b, decode);
      if ok { EvictToBudget(touched, b.layer); }
    }

    // ---- a whole replay ----

    /** The lookahead: for every key, the batches that touch it. */
    method BuildOccurrences(batches: seq<LayerBatch>, ghost keys: seq<seq<Key>>)
      requires |keys| == |batches| && forall i :: 0 <= i < |batches| ==> keys[i] == KeysOf(batches[i])
      modifies this`occ, this`never
      ensures never == |batches| && occ == OccurrenceMap(keys, |batches|)
    {
      occ, never := map[], |batches|;
      var bi := 0;
      while bi < |batches|
        invariant 0 <= bi <= |batches| && never == |batches|
        invariant occ == OccurrenceMap(keys, bi)
      {
        Record(KeysOf(batches[bi]), bi);
        bi := bi + 1;
      }
    }

    method Record(keys: seq<Key>, bi: int)
      modifies this`occ
      ensures occ == Recorded(old(occ), keys, bi)
    {
      var j := 0;
      while j < |keys|
        invariant 0 <= j <= |keys|
        invariant occ == Recorded(old(occ), keys[..j], bi)
      {
        assert keys[..j + 1][..j] == keys[..j];
        if keys[j] !in SetOf(keys[..j]) {
          occ := occ[keys[j] := OccIn(occ, keys[j]) + [bi]];
        }
        j := j + 1;
      }
      assert keys[..j] == keys;
    }

    /** One batch of a replay, as a step of its schedule. */
    method Replay(b: LayerBatch, bi: nat, decode: bool, ghost keys: seq<seq<Key>>, ghost touched: seq<set<Key>>)
      returns (ok: bool)
      requires Valid() && bi < |keys| == |touched| && keys[bi] == KeysOf(b)
      requires forall j :: 0 <= j < |keys| ==> touched[j] == SetOf(keys[j])
      requires (last, clock) == StampsAt(keys, bi) && FreqTells(freq, touched, bi) && part == Slice(budget, nLayer)
      requires policy == Belady ==> never == |touched| && occ == OccurrenceMap(keys, |keys|)
      modifies this`resident, this`bytesUsed, this`layerBytes, this`readBytes, this`lookups, this`hits
      modifies this`decLookups, this`decHits, this`freq, this`clock, this`order, this`last, this`droppedBytes
      modifies this`batchIdx
      ensures ok <==> b.ids == [] || b.layer in c.bytes
      ensures ok ==> Valid() && Now() == BooksAfter(c, old(Now()), keys[bi], old(resident.Keys), decode)
      ensures ok ==> FreqTells(freq, touched, bi + 1)
      ensures ok ==>
                ReplayStep(policy, c, budget, nLayer, b.layer, touched, StampsAt(keys, bi + 1).0, old(resident.Keys),
                           bi, resident.Keys)
      ensures occ == old(occ) && never == old(never)
    {
      batchIdx := bi;
      ghost var from, r0 := Now(), resident.Keys;
      ok := Batch(b, decode);
      if !ok { return; }
      BatchStamps(c, keys, bi, from, decode, r0);
      BatchFreq(c, keys, touched, bi, from, decode, r0);
      EvictionReplays(Rank(), c, budget, nLayer, b.layer, keys, touched, bi, last, r0, resident.Keys);
    }

    /** Where a replay stands after n batches. */
    ghost predicate At(batches: seq<LayerBatch>, keys: seq<seq<Key>>, touched: seq<set<Key>>, sched: seq<set<Key>>,
                       nPrefill: nat, n: nat)
      requires n <= |batches| == |keys| == |touched|
      reads this
    {
      && Valid() && AllSized(c, batches, n)
      && (policy == Belady ==> never == |batches| && occ == OccurrenceMap(keys, |batches|))
      && ReplaysTo(policy, c, budget, nLayer, batches, sched, n) && sched[n] == resident.Keys
      && (last, clock) == StampsAt(keys, n) && FreqTells(freq, touched, n)
      && Counts(c, Now(), touched, sched, nPrefill, n)
    }

    /** Nothing was replayed yet. */
    ghost predicate Fresh()
      reads this
    {
      && Valid() && resident == map[] && last == map[] && freq == map[] && clock == 0
      && Now() == Books(0, 0, 0, 0, 0, freq, last, clock)
    }

    method ReplayNext(batches: seq<LayerBatch>, bi: nat, nPrefill: nat, ghost keys: seq<seq<Key>>,
                      ghost touched: seq<set<Key>>,
                      ghost sched0: seq<set<Key>>)
      returns (ok: bool, ghost sched: seq<set<Key>>)
      requires bi < |batches| && keys == AllKeys(batches) && touched == TouchedSets(keys)
      requires part == Slice(budget, nLayer)
      requires At(batches, keys, touched, sched0, nPrefill, bi)
      modifies this
      ensures ok ==> At(batches, keys, touched, sched, nPrefill, bi + 1)
      ensures !ok ==> !AllSized(c, batches, |batches|)
    {
      ghost var from, r0 := Now(), resident.Keys;
      ok := Replay(batches[bi], bi, bi >= nPrefill, keys, touched);
      sched := sched0 + [resident.Keys];
      if ok {
        BatchStamps(c, keys, bi, from, bi >= nPrefill, r0);
        BatchCounts(c, keys, touched, sched0, bi, from, nPrefill, resident.Keys);
        ExtendReplay(policy, c, budget, nLayer, batches, sched0, bi, resident.Keys);
      } else {
        UnsizedStays(c, batches, bi, |batches|);
      }
    }

    method LookAhead(batches: seq<LayerBatch>, nPrefill: nat, ghost keys: seq<seq<Key>>, ghost touched: seq<set<Key>>)
      returns (ghost sched: seq<set<Key>>)
      requires Fresh()
      requires keys == AllKeys(batches) && |touched| == |keys|
      modifies this`occ, this`never
      ensures At(batches, keys, touched, sched, nPrefill, 0)
    {
      if policy == Belady { BuildOccurrences(batches, keys); }
      sched := [{}];
      assert resident.Keys == {};
    }

    /** Replay all batches; the first nPrefill of them are the prefill pass. */
    method Run(batches: seq<LayerBatch>, nPrefill: nat) returns (ok: bool, ghost sched: seq<set<Key>>)
      requires Fresh()
      requires part == Slice(budget, nLayer)
      modifies this
      ensures ok <==> AllSized(c, batches, |batches|)
      ensures ok ==> Valid() && Replays(policy, c, budget, nLayer, batches, sched) && resident.Keys == sched[|batches|]
      ensures ok ==> Counts(c, Now(), TouchedSets(AllKeys(batches)), sched, nPrefill, |batches|)
    {
      ghost var keys := AllKeys(batches);
      ghost var touched := TouchedSets(keys);
      sched := LookAhead(batches, nPrefill, keys, touched);
      ok, sched := ReplayAll(batches, nPrefill, keys, touched, sched);
    }

    method ReplayAll(batches: seq<LayerBatch>, nPrefill: nat, ghost keys: seq<seq<Key>>, ghost touched: seq<set<Key>>,
                     ghost sched0: seq<set<Key>>)
      returns (ok: bool, ghost sched: seq<set<Key>>)
      requires keys == AllKeys(batches) && touched == TouchedSets(keys) && part == Slice(budget, nLayer)
      requires At(batches, keys, touched, sched0, nPrefill, 0)
      modifies this
      ensures ok ==> At(batches, keys, touched, sched, nPrefill, |batches|)
      ensures !ok ==> !AllSized(c, batches, |batches|)
    {
      ok, sched := true, sched0;
      for bi := 0 to |batches|
        invariant ok && At(batches, keys, touched, sched, nPrefill, bi)
      {
        ok, sched := ReplayNext(batches, bi, nPrefill, keys, touched, sched);
        if !ok { break; }
      }
    }
  }

  /** Every layer that is loaded has a cost, so the replay can size every entry. */
  predicate AllSized(c: Costs, batches: seq<LayerBatch>, n: nat)
    requires n <= |batches|
  {
    n == 0 || (AllSized(c, batches, n - 1) && (batches[n - 1].ids == [] || batches[n - 1].layer in c.bytes))
  }

  lemma {:induction false} UnsizedStays(c: Costs, batches: seq<LayerBatch>, i: nat, n: nat)
    requires i < n <= |batches| && batches[i].ids != [] && batches[i].layer !in c.bytes
    ensures !AllSized(c, batches, n)
  {
    if i < n - 1 {
      UnsizedStays(c, batches, i, n - 1);
    }
  }

  /** What one batch does to the counters. */
  lemma BatchCounts(c: Costs, keys: seq<seq<Key>>, touched: seq<set<Key>>, sched: seq<set<Key>>, i: nat, from: Books,
                    nPrefill: nat, r': set<Key>)
    requires i < |keys| == |touched| && touched[i] == SetOf(keys[i]) && |sched| == i + 1
    requires Counts(c, from, touched, sched, nPrefill, i)
    ensures Counts(c, BooksAfter(c, from, keys[i], sched[i], i >= nPrefill), touched, sched + [r'], nPrefill, i + 1)
  {
    BooksMean(c, from, keys[i], sched[i], i >= nPrefill);
    OneMoreBatch(c, touched, sched, i, nPrefill, r');
    assert sched[i] * touched[i] == touched[i] * sched[i];
  }

  lemma OneMoreBatch(c: Costs, touched: seq<set<Key>>, sched: seq<set<Key>>, i: nat, nPrefill: nat, r': set<Key>)
    requires i < |touched| && |sched| == i + 1
    ensures var more, p := sched + [r'], Min(nPrefill, i);
            && Hits(touched, more, i + 1) == Hits(touched, sched, i) + |sched[i] * touched[i]|
            && Reads(c, touched, more, i + 1) == Reads(c, touched, sched, i) + Sum(touched[i] - sched[i], c)
            && Hits(touched, more, p) == Hits(touched, sched, p)
  {
    HitsPrefix(touched, sched, [r'], i);
    HitsPrefix(touched, sched, [r'], Min(nPrefill, i));
    ReadsPrefix(c, touched, sched, [r'], i);
    assert (sched + [r'])[i] == sched[i];
  }

  /** What one batch does to the stamps. */
  lemma BatchStamps(c: Costs, keys: seq<seq<Key>>, i: nat, from: Books, decode: bool, r: set<Key>)
    requires i < |keys| && (from.last, from.clock) == StampsAt(keys, i)
    ensures var now := BooksAfter(c, from, keys[i], r, decode);
            && (now.last, now.clock) == StampsAt(keys, i + 1)
            && now.last.Keys == from.last.Keys + SetOf(keys[i])
  {
    BooksStamp(c, from, keys[i], r, decode);
    StampedNewer(from.last, from.clock, keys[i]);
  }

  /** What one batch does to the frequencies. */
  lemma BatchFreq(c: Costs, keys: seq<seq<Key>>, touched: seq<set<Key>>, i: nat, from: Books, decode: bool, r: set<Key>)
    requires i < |keys| == |touched| && touched[i] == SetOf(keys[i]) && FreqTells(from.freq, touched, i)
    ensures FreqTells(BooksAfter(c, from, keys[i], r, decode).freq, touched, i + 1)
  {
    var now := BooksAfter(c, from, keys[i], r, decode);
    BooksMean(c, from, keys[i], r, decode);
    forall x: Key
      ensures FreqIn(now.freq, x) == Uses(touched, x, i + 1)
    {
      assert FreqIn(from.freq, x) == Uses(touched, x, i);
    }
  }

  lemma LayerWithout(s: set<Key>, c: Costs, i: Key)
    requires i in s
    ensures Sum(s - {i}, c) == Sum(s, c) - c.Of(i)
    ensures forall l :: Sum(InLayer(s - {i}, l), c) == Sum(InLayer(s, l), c) - (if l == i.layer then c.Of(i) else 0)
  {
    SumRemove(s, c, i);
    forall l
      ensures Sum(InLayer(s - {i}, l), c) == Sum(InLayer(s, l), c) - (if l == i.layer then c.Of(i) else 0)
    {
      if l == i.layer {
        SumRemove(InLayer(s, l), c, i);
        assert InLayer(s - {i}, l) == InLayer(s, l) - {i};
      } else {
        assert InLayer(s - {i}, l) == InLayer(s, l);
      }
    }
  }
}
