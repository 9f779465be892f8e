/** What the replacement policies of the cache simulator are worth. A schedule is the sequence of
    resident sets between the batches; the theorems compare schedules that follow the same rules:
    a batch is admitted whole, eviction follows it, and a touched key is never evicted. */
module CacheTheory {
  import opened Basics

  /** One expert of one layer. */
  datatype Key = Key(layer: int, expert: int)

  /** Bytes per expert, by layer. */
  datatype Costs = Costs(bytes: map<int, int>) {
    function Of(key: Key): int {
      if key.layer in bytes then bytes[key.layer] else 0
    }

    ghost predicate NonNegative() {
      forall l :: l in bytes ==> bytes[l] >= 0
    }
  }

  ghost function Pick<T>(s: set<T>): (x: T)
    requires s != {}
    ensures x in s
  {
    var x :| x in s; x
  }

  // ---- sums over finite sets of keys ----

  ghost function Sum(s: set<Key>, c: Costs): int
  {
    if s == {} then 0 else
      var x := Pick(s);
      c.Of(x) + Sum(s - {x}, c)
  }

  lemma {:induction false} SumRemove(s: set<Key>, c: Costs, x: Key)
    requires x in s
    ensures Sum(s, c) == c.Of(x) + Sum(s - {x}, c)
    decreases s
  {
    var y := Pick(s);
    if y != x {
      SumRemove(s - {y}, c, x);
      SumRemove(s - {x}, c, y);
      assert s - {y} - {x} == s - {x} - {y};
    }
  }

  lemma SumAdd(s: set<Key>, c: Costs, x: Key)
    requires x !in s
    ensures Sum(s + {x}, c) == Sum(s, c) + c.Of(x)
  {
    SumRemove(s + {x}, c, x);
    assert s + {x} - {x} == s;
  }

  lemma {:induction false} SumMonotonic(a: set<Key>, b: set<Key>, c: Costs)
    requires c.NonNegative() && a <= b
    ensures Sum(a, c) <= Sum(b, c)
    decreases b
  {
    if a != b {
      assert b == a + (b - a);
      var x := Pick(b - a);
      SumRemove(b, c, x);
      SumMonotonic(a, b - {x}, c);
    }
  }

  lemma {:induction false} SumUniform(s: set<Key>, c: Costs, unit: int)
    requires forall x :: x in s ==> c.Of(x) == unit
    ensures Sum(s, c) == unit * |s|
  {
    if s != {} {
      var x := Pick(s);
      SumRemove(s, c, x);
      SumUniform(s - {x}, c, unit);
    }
  }

  // ---- schedules ----

  /** The first batch at or after i that touches x; the number of batches if there is none. */
  function NextFrom(touched: seq<set<Key>>, x: Key, i: nat): (n: nat)
    requires i <= |touched|
    ensures i <= n <= |touched|
    decreases |touched| - i
  {
    if i == |touched| || x in touched[i] then i else NextFrom(touched, x, i + 1)
  }

  lemma {:induction false} NextFromIsFirst(touched: seq<set<Key>>, x: Key, i: nat)
    requires i <= |touched|
    ensures var n := NextFrom(touched, x, i);
            (n < |touched| ==> x in touched[n]) && forall j :: i <= j < n ==> x !in touched[j]
    decreases |touched| - i
  {
    if i < |touched| && x !in touched[i] {
      NextFromIsFirst(touched, x, i + 1);
    }
  }

  ghost predicate Starts(touched: seq<set<Key>>, sched: seq<set<Key>>) {
    |sched| == |touched| + 1 && sched[0] == {}
  }

  function Hits(touched: seq<set<Key>>, sched: seq<set<Key>>, n: nat): nat
    requires n <= |touched| && n <= |sched|
  {
    if n == 0 then 0 else Hits(touched, sched, n - 1) + |sched[n - 1] * touched[n - 1]|
  }

  /** One batch under the rules, for a cache of `room` entries: everything touched stays, nothing else
      is brought in, and the result fits unless the batch alone does not. */
  ghost predicate WithinRoom(r: set<Key>, t: set<Key>, room: int, r': set<Key>) {
    t <= r' <= r + t && |r'| <= Max(room, |t|)
  }

  /** One batch of the furthest-next-use policy: it drops something only when the cache is too full,
      never more than needed, and never a key that is needed before one that it keeps. */
  ghost predicate BeladyStep(touched: seq<set<Key>>, i: nat, r: set<Key>, room: int, r': set<Key>)
    requires i < |touched|
  {
    var t := touched[i];
    && t <= r' <= r + t
    && (r' == r + t || |r'| >= Max(room, |t|))
    && forall kept, gone :: kept in r' - t && gone in r + t - r' ==>
         NextFrom(touched, kept, i + 1) <= NextFrom(touched, gone, i + 1)
  }

  ghost predicate BeladyRun(touched: seq<set<Key>>, sched: seq<set<Key>>, room: int) {
    && Starts(touched, sched)
    && forall i :: 0 <= i < |touched| ==> BeladyStep(touched, i, sched[i], room, sched[i + 1])
  }

  ghost predicate RoomyRun(touched: seq<set<Key>>, sched: seq<set<Key>>, room: int) {
    && Starts(touched, sched)
    && forall i :: 0 <= i < |touched| ==> WithinRoom(sched[i], touched[i], room, sched[i + 1])
  }

  // ---- the furthest-next-use policy is the ceiling ----

  /** The keys of s that are needed again by batch k, seen from batch i. */
  ghost function Near(touched: seq<set<Key>>, s: set<Key>, i: nat, k: int): set<Key>
    requires i <= |touched|
  {
    set x | x in s && NextFrom(touched, x, i) <= k
  }

  /** The potential: at every horizon, what b will need soon and a does not hold is covered by the
      hits that a is already ahead. */
  ghost predicate Dominates(touched: seq<set<Key>>, a: set<Key>, b: set<Key>, i: nat, lead: int)
    requires i <= |touched|
  {
    lead >= 0 && forall k: int :: |Near(touched, a, i, k)| + lead >= |Near(touched, b, i, k)|
  }

  lemma SplitSize(s: set<Key>, t: set<Key>)
    ensures |s| == |s * t| + |s - t|
  {
    assert s == (s * t) + (s - t);
  }

  lemma SubsetSize(a: set<Key>, b: set<Key>)
    requires a <= b
    ensures |a| <= |b|
  {
    assert b == a + (b - a);
  }

  /** Seen from batch i, the keys touched in it come first and the others are as far as from i + 1. */
  lemma NearSplits(touched: seq<set<Key>>, s: set<Key>, i: nat, k: int)
    requires i < |touched|
    ensures k >= i ==> |Near(touched, s, i, k)| == |s * touched[i]| + |Near(touched, s - touched[i], i + 1, k)|
  {
    var t := touched[i];
    if k >= i {
      assert Near(touched, s, i, k) * t == s * t;
      assert Near(touched, s, i, k) - t == Near(touched, s - t, i + 1, k);
      SplitSize(Near(touched, s, i, k), t);
    }
  }

  lemma NearAfter(touched: seq<set<Key>>, s: set<Key>, t: set<Key>, i: nat, k: int)
    requires i <= |touched| && t <= s
    ensures |Near(touched, s, i, k)| == |Near(touched, t, i, k)| + |Near(touched, s - t, i, k)|
  {
    assert Near(touched, s, i, k) * t == Near(touched, t, i, k);
    assert Near(touched, s, i, k) - t == Near(touched, s - t, i, k);
    SplitSize(Near(touched, s, i, k), t);
  }

  /** Eviction: of what both still have to choose from, a keeps the soonest needed. */
  lemma EvictionKeepsLead(touched: seq<set<Key>>, a: set<Key>, a': set<Key>, b: set<Key>, b': set<Key>, i: nat,
                          room: int, lead: int, k: int)
    requires i < |touched| && lead >= 0
    requires BeladyStep(touched, i, a, room, a') && WithinRoom(b, touched[i], room, b')
    requires |Near(touched, a - touched[i], i + 1, k)| + lead >= |Near(touched, b - touched[i], i + 1, k)|
    ensures |Near(touched, a' - touched[i], i + 1, k)| + lead >= |Near(touched, b' - touched[i], i + 1, k)|
  {
    var t := touched[i];
    var nearA, nearA', nearB, nearB' := Near(touched, a - t, i + 1, k), Near(touched, a' - t, i + 1, k),
      Near(touched, b - t, i + 1, k), Near(touched, b' - t, i + 1, k);
    SubsetSize(nearB', nearB);
    SubsetSize(nearB', b' - t);
    if exists gone :: gone in a + t - a' && NextFrom(touched, gone, i + 1) <= k {
      var gone :| gone in a + t - a' && NextFrom(touched, gone, i + 1) <= k;
      assert nearA' == a' - t;
      SplitSize(a', t);
      SplitSize(b', t);
      assert a' * t == t && b' * t == t;
    } else {
      forall x | x in nearA
        ensures x in nearA'
      {
        assert x in a' || x in a + t - a';
      }
      SubsetSize(nearA, nearA');
    }
  }

  lemma DominanceStep(touched: seq<set<Key>>, a: set<Key>, a': set<Key>, b: set<Key>, b': set<Key>, i: nat, room: int,
                      lead: int)
    requires i < |touched| && Dominates(touched, a, b, i, lead)
    requires BeladyStep(touched, i, a, room, a') && WithinRoom(b, touched[i], room, b')
    ensures Dominates(touched, a', b', i + 1, lead + |a * touched[i]| - |b * touched[i]|)
  {
    var t := touched[i];
    var lead' := lead + |a * t| - |b * t|;
    assert Near(touched, a, i, i) == a * t && Near(touched, b, i, i) == b * t;
    assert lead' >= 0;
    forall k: int {:trigger Near(touched, a', i + 1, k)}
      ensures |Near(touched, a', i + 1, k)| + lead' >= |Near(touched, b', i + 1, k)|
    {
      if k <= i {
        assert Near(touched, b', i + 1, k) == {};
      } else {
        NearSplits(touched, a, i, k);
        NearSplits(touched, b, i, k);
        assert |Near(touched, a, i, k)| + lead >= |Near(touched, b, i, k)|;
        EvictionKeepsLead(touched, a, a', b, b', i, room, lead', k);
        NearAfter(touched, a', t, i + 1, k);
        NearAfter(touched, b', t, i + 1, k);
      }
    }
  }

  /** Belady is the ceiling: no schedule that keeps to the same room ever has more hits, at any point
      of any batch sequence, even one that knows the future or evicts early. */
  lemma {:induction false} BeladyIsOptimal(touched: seq<set<Key>>, a: seq<set<Key>>, b: seq<set<Key>>, room: int,
                                           n: nat)
    requires BeladyRun(touched, a, room) && RoomyRun(touched, b, room) && n <= |touched|
    ensures Hits(touched, a, n) >= Hits(touched, b, n)
    ensures Dominates(touched, a[n], b[n], n, Hits(touched, a, n) - Hits(touched, b, n))
  {
    if n == 0 {
      assert forall k: int :: Near(touched, a[0], 0, k) == {} && Near(touched, b[0], 0, k) == {};
    } else {
      BeladyIsOptimal(touched, a, b, room, n - 1);
      DominanceStep(touched, a[n - 1], a[n], b[n - 1], b[n], n - 1, room,
                    Hits(touched, a, n - 1) - Hits(touched, b, n - 1));
    }
  }

  lemma {:induction false} HitsPrefix(touched: seq<set<Key>>, sched: seq<set<Key>>, more: seq<set<Key>>, n: nat)
    requires n <= |touched| && n <= |sched|
    ensures Hits(touched, sched + more, n) == Hits(touched, sched, n)
  {
    if n > 0 {
      HitsPrefix(touched, sched, more, n - 1);
    }
  }

  /** Prefill is one pass over distinct layers, so nothing in it can hit; a decode-only hit count is
      the whole hit count. */
  lemma {:induction false} PrefillNeverHits(touched: seq<set<Key>>, sched: seq<set<Key>>, n: nat)
    requires Starts(touched, sched) && n <= |touched|
    requires forall i :: 0 <= i < |touched| ==> sched[i + 1] <= sched[i] + touched[i]
    requires forall i, j :: 0 <= i < j < n ==> touched[i] !! touched[j]
    ensures Hits(touched, sched, n) == 0
  {
    if n > 0 {
      PrefillNeverHits(touched, sched, n - 1);
      FromTouched(touched, sched, n - 1);
      assert sched[n - 1] * touched[n - 1] == {};
    }
  }

  // ---- rules in bytes ----

  /** One batch of a global policy with a byte budget: it evicts one key at a time while it is over
      budget, so what it drops last was dropped from a cache that was still too large. */
  ghost predicate BudgetStep(c: Costs, budget: int, r: set<Key>, t: set<Key>, r': set<Key>)
  {
    && t <= r' <= r + t
    && (Sum(r', c) <= budget || r' == t)
    && (r' == r + t || exists w :: w in r + t - r' && Sum(r' + {w}, c) > budget)
  }

  /** With one size of expert, a byte budget is a number of entries. */
  lemma BudgetIsRoom(c: Costs, unit: int, budget: int, r: set<Key>, t: set<Key>, r': set<Key>)
    requires unit > 0 && forall x :: x in r + t ==> c.Of(x) == unit
    requires BudgetStep(c, budget, r, t, r')
    ensures WithinRoom(r, t, budget / unit, r')
    ensures r' == r + t || |r'| >= Max(budget / unit, |t|)
  {
    SumUniform(r', c, unit);
    SubsetSize(t, r');
    FloorBound(unit, budget, |r'|);
    if r' != r + t {
      var w :| w in r + t - r' && Sum(r' + {w}, c) > budget;
      SumUniform(r' + {w}, c, unit);
      FloorBound(unit, budget, |r' + {w}|);
    }
  }

  lemma FloorBound(unit: int, budget: int, n: int)
    requires unit > 0
    ensures unit * n <= budget <==> n <= budget / unit
  {
    var q, r := budget / unit, budget % unit;
    assert budget == unit * q + r && 0 <= r < unit;
    if n <= q {
      assert unit * n <= unit * q;
    } else {
      assert unit * n >= unit * (q + 1) == unit * q + unit;
    }
  }

  ghost predicate DropsFurthest(touched: seq<set<Key>>, i: nat, r: set<Key>, r': set<Key>)
    requires i < |touched|
  {
    forall kept, gone :: kept in r' - touched[i] && gone in r + touched[i] - r' ==>
      NextFrom(touched, kept, i + 1) <= NextFrom(touched, gone, i + 1)
  }

  // ---- partitioned policies ----

  ghost function InLayer(s: set<Key>, layer: int): set<Key>
  {
    set x | x in s && x.layer == layer
  }

  /** One batch of a partitioned policy: only the staging layer's own entries are candidates, until the
      layer is within its slice or holds only what the batch touched. */
  ghost predicate LayerStep(c: Costs, part: int, layer: int, r: set<Key>, t: set<Key>, r': set<Key>)
  {
    && t <= r' <= r + t
    && (forall x :: x in t || x in r + t - r' ==> x.layer == layer)
    && (Sum(InLayer(r', layer), c) <= part || InLayer(r', layer) == t)
  }

  ghost predicate LayerRun(c: Costs, part: int, layers: seq<int>, touched: seq<set<Key>>, sched: seq<set<Key>>)
  {
    && Starts(touched, sched) && |layers| == |touched|
    && forall i :: 0 <= i < |touched| ==> LayerStep(c, part, layers[i], sched[i], touched[i], sched[i + 1])
  }

  function Times(k: nat, n: nat): nat {
    if n == 0 then 0 else Times(k, n - 1) + k
  }

  lemma {:induction false} TimesIsProduct(k: nat, n: nat)
    ensures Times(k, n) == k * n
  {
    if n > 0 { TimesIsProduct(k, n - 1); }
  }

  /** After every batch a layer holds no more entries than its slice has room for, or than one batch brings. */
  lemma {:induction false} LayerBound(c: Costs, unit: int, part: int, w: nat, layers: seq<int>, touched: seq<set<Key>>,
                                      sched: seq<set<Key>>, n: nat, layer: int)
    requires unit > 0 && part / unit <= w && n <= |touched| && LayerRun(c, part, layers, touched, sched)
    requires forall i :: 0 <= i < |touched| ==> |touched[i]| <= w
    requires forall i, x :: 0 <= i <= |touched| && x in sched[i] ==> c.Of(x) == unit
    ensures |InLayer(sched[n], layer)| <= w
  {
    if n == 0 {
      assert InLayer(sched[0], layer) == {};
    } else {
      LayerBound(c, unit, part, w, layers, touched, sched, n - 1, layer);
      assert LayerStep(c, part, layers[n - 1], sched[n - 1], touched[n - 1], sched[n]);
      if layer != layers[n - 1] {
        assert InLayer(sched[n], layer) == InLayer(sched[n - 1], layer);
      } else if InLayer(sched[n], layer) != touched[n - 1] {
        SumUniform(InLayer(sched[n], layer), c, unit);
        FloorBound(unit, part, |InLayer(sched[n], layer)|);
      }
    }
  }

  lemma {:induction false} SizeOverLayers(s: set<Key>, layers: set<int>, w: nat)
    requires forall x :: x in s ==> x.layer in layers
    requires forall l :: l in layers ==> |InLayer(s, l)| <= w
    ensures |s| <= Times(w, |layers|)
    decreases layers
  {
    if layers == {} {
      assert s == {};
    } else {
      var l := Pick(layers);
      var rest := s - InLayer(s, l);
      forall k | k in layers - {l}
        ensures |InLayer(rest, k)| <= w
      {
        assert InLayer(rest, k) == InLayer(s, k);
      }
      SizeOverLayers(rest, layers - {l}, w);
      SplitSize(s, InLayer(s, l));
      assert s * InLayer(s, l) == InLayer(s, l);
    }
  }

  lemma {:induction false} SumDisjoint(a: set<Key>, b: set<Key>, c: Costs)
    requires a !! b
    ensures Sum(a + b, c) == Sum(a, c) + Sum(b, c)
    decreases b
  {
    if b == {} {
      assert a + b == a;
    } else {
      var x := Pick(b);
      SumRemove(b, c, x);
      SumDisjoint(a, b - {x}, c);
      SumAdd(a + (b - {x}), c, x);
      assert a + (b - {x}) + {x} == a + b;
    }
  }

  lemma {:induction false} FromTouched(touched: seq<set<Key>>, sched: seq<set<Key>>, n: nat)
    requires Starts(touched, sched) && n <= |touched|
    requires forall i :: 0 <= i < |touched| ==> sched[i + 1] <= sched[i] + touched[i]
    ensures forall x :: x in sched[n] ==> exists j :: 0 <= j < n && x in touched[j]
  {
    if n > 0 {
      FromTouched(touched, sched, n - 1);
      assert sched[n - 1 + 1] <= sched[n - 1] + touched[n - 1];
    }
  }

  // ---- least recently used ----

  /** The recency stamps after touching a list of keys, starting from a clock. Duplicates promote. */
  function Stamped(last: map<Key, int>, clock: int, keys: seq<Key>): map<Key, int> {
    if keys == [] then last
    else Stamped(last, clock, keys[..|keys| - 1])[keys[|keys| - 1] := clock + |keys|]
  }

  /** A touched key is newer than every untouched one, and the untouched ones keep their stamps. */
  lemma {:induction false} StampedNewer(last: map<Key, int>, clock: int, keys: seq<Key>)
    ensures var r, t := Stamped(last, clock, keys), SetOf(keys);
            && r.Keys == last.Keys + t
            && (forall x :: x in t ==> clock < r[x] <= clock + |keys|)
            && (forall x :: x in last && x !in t ==> r[x] == last[x])
  {
    if keys != [] {
      StampedNewer(last, clock, keys[..|keys| - 1]);
    }
  }

  ghost predicate Stamps(last: map<Key, int>, clock: int) {
    && (forall x :: x in last ==> last[x] <= clock)
    && (forall x, y :: x in last && y in last && last[x] == last[y] ==> x == y)
  }

  lemma {:induction false} StampedStays(last: map<Key, int>, clock: int, keys: seq<Key>)
    requires Stamps(last, clock)
    ensures Stamps(Stamped(last, clock, keys), clock + |keys|)
  {
    if keys != [] {
      StampedStays(last, clock, keys[..|keys| - 1]);
      StampedNewer(last, clock, keys[..|keys| - 1]);
    }
  }

  /** One batch of the LRU policy: what is dropped is older than what is kept, and no more is dropped
      than the budget asks for. `last` holds the stamps with the batch already in them. */
  ghost predicate LruStep(c: Costs, budget: int, last: map<Key, int>, r: set<Key>, t: set<Key>, r': set<Key>) {
    && r + t <= last.Keys
    && t <= r' <= r + t
    && (Sum(r', c) <= budget || r' == t)
    && (forall kept, gone :: kept in r' - t && gone in r + t - r' ==> last[gone] < last[kept])
    && (|| r' == r + t
        || (exists w :: w in r + t - r' && Sum(r' + {w}, c) > budget
                        && forall u :: u in r + t - r' ==> last[u] <= last[w]))
  }

  /** The resident set is a prefix of the recency order of everything ever seen. */
  ghost predicate MostRecent(r: set<Key>, last: map<Key, int>) {
    r <= last.Keys && forall x, y :: x in r && y in last && last[y] > last[x] ==> y in r
  }

  lemma LruKeepsMostRecent(c: Costs, budget: int, last: map<Key, int>, clock: int, keys: seq<Key>, r: set<Key>,
                           r': set<Key>)
    requires Stamps(last, clock) && MostRecent(r, last)
    requires var t := SetOf(keys); LruStep(c, budget, Stamped(last, clock, keys), r, t, r')
    ensures var t, now := SetOf(keys), Stamped(last, clock, keys); MostRecent(r + t, now) && MostRecent(r', now)
  {
    StampedNewer(last, clock, keys);
  }

  /** Inclusion, one batch: the smaller budget never keeps what the larger one drops. */
  lemma LruInclusionStep(c: Costs, budget1: int, budget2: int, now: map<Key, int>, t: set<Key>,
                         r1: set<Key>, r1': set<Key>, r2: set<Key>, r2': set<Key>)
    requires c.NonNegative() && budget1 <= budget2 && r1 <= r2
    requires r2 + t <= now.Keys && forall x, y :: x in now && y in now && now[x] == now[y] ==> x == y
    requires MostRecent(r1', now)
    requires LruStep(c, budget1, now, r1, t, r1') && LruStep(c, budget2, now, r2, t, r2')
    ensures r1' <= r2'
  {
    forall v | v in r1'
      ensures v in r2'
    {
      LargerBudgetKeeps(c, budget1, budget2, now, t, r1 + t, r1', r2 + t, r2', v);
    }
  }

  lemma LargerBudgetKeeps(c: Costs, budget1: int, budget2: int, now: map<Key, int>, t: set<Key>,
                          s1: set<Key>, r1: set<Key>, s2: set<Key>, r2: set<Key>, v: Key)
    requires c.NonNegative() && budget1 <= budget2
    requires s1 <= s2 <= now.Keys && t <= r1 <= s1 && t <= r2 <= s2
    requires forall x, y :: x in now && y in now && now[x] == now[y] ==> x == y
    requires MostRecent(r1, now)
    requires Sum(r1, c) <= budget1 || r1 == t
    requires forall kept, gone :: kept in r2 - t && gone in s2 - r2 ==> now[gone] < now[kept]
    requires r2 == s2
             || exists w :: w in s2 - r2 && Sum(r2 + {w}, c) > budget2 && forall u :: u in s2 - r2 ==> now[u] <= now[w]
    requires v in r1
    ensures v in r2
  {
    if v !in r2 {
      var w :| w in s2 - r2 && Sum(r2 + {w}, c) > budget2 && forall u :: u in s2 - r2 ==> now[u] <= now[w];
      forall x | x in r2 + {w} && x !in t
        ensures x in r1
      {
        NewerStays(now, r1, v, x);
      }
      KeepsMore(c, t, r1, r2, w);
    }
  }

  lemma NewerStays(now: map<Key, int>, r: set<Key>, v: Key, x: Key)
    requires MostRecent(r, now) && v in r && x in now && now[v] <= now[x]
    requires forall y, z :: y in now && z in now && now[y] == now[z] ==> y == z
    ensures x in r
  {
  }

  lemma KeepsMore(c: Costs, t: set<Key>, r1: set<Key>, r2: set<Key>, w: Key)
    requires c.NonNegative() && t <= r1 && forall x :: x in r2 + {w} && x !in t ==> x in r1
    ensures Sum(r2 + {w}, c) <= Sum(r1, c)
  {
    SumMonotonic(r2 + {w}, r1, c);
  }

  /** The stamps and the clock after the first n batches, each given as its list of keys. */
  function StampsAt(batches: seq<seq<Key>>, n: nat): (map<Key, int>, int)
    requires n <= |batches|
  {
    if n == 0 then (map[], 0)
    else var (last, clock) := StampsAt(batches, n - 1); (Stamped(last, clock, batches[n - 1]), clock + |batches[n - 1]|)
  }

  function SetOf(keys: seq<Key>): (s: set<Key>)
    ensures forall x :: x in s <==> x in keys
  {
    if keys == [] then {} else SetOf(keys[..|keys| - 1]) + {keys[|keys| - 1]}
  }

  function TouchedSets(batches: seq<seq<Key>>): (r: seq<set<Key>>)
    ensures |r| == |batches| && forall i :: 0 <= i < |r| ==> r[i] == SetOf(batches[i])
  {
    if batches == [] then [] else [SetOf(batches[0])] + TouchedSets(batches[1..])
  }

  ghost predicate LruRun(c: Costs, budget: int, batches: seq<seq<Key>>, sched: seq<set<Key>>)
  {
    var touched := TouchedSets(batches);
    && Starts(touched, sched)
    && forall i :: 0 <= i < |batches| ==>
         LruStep(c, budget, StampsAt(batches, i + 1).0, sched[i], touched[i], sched[i + 1])
  }

  /** LRU is a stack algorithm: at every batch the resident set grows with the budget, whatever the
      experts of each layer weigh, and so do the hits. */
  lemma {:induction false} LruInclusion(c: Costs, budget1: int, budget2: int, batches: seq<seq<Key>>,
                                        small: seq<set<Key>>, large: seq<set<Key>>, n: nat)
    requires c.NonNegative() && budget1 <= budget2 && n <= |batches|
    requires LruRun(c, budget1, batches, small) && LruRun(c, budget2, batches, large)
    ensures small[n] <= large[n]
    ensures Hits(TouchedSets(batches), small, n) <= Hits(TouchedSets(batches), large, n)
    ensures var (last, clock) := StampsAt(batches, n);
            Stamps(last, clock) && MostRecent(small[n], last) && MostRecent(large[n], last)
  {
    if n > 0 {
      LruInclusion(c, budget1, budget2, batches, small, large, n - 1);
      var touched := TouchedSets(batches);
      var (last, clock) := StampsAt(batches, n - 1);
      var keys := batches[n - 1];
      LruKeepsMostRecent(c, budget1, last, clock, keys, small[n - 1], small[n]);
      LruKeepsMostRecent(c, budget2, last, clock, keys, large[n - 1], large[n]);
      StampedStays(last, clock, keys);
      LruInclusionStep(c, budget1, budget2, Stamped(last, clock, keys), touched[n - 1], small[n - 1], small[n],
                       large[n - 1], large[n]);
      SubsetSize(small[n - 1] * touched[n - 1], large[n - 1] * touched[n - 1]);
    }
  }
}
