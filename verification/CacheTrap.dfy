/** Why the furthest-next-use policy is no ceiling for experts of two sizes: it drops what is needed last, and,
    as that is too small, some of a group that is needed before; dropping all of that group instead is better,
    and lfu does it when the group was used least. Told on the sets of keys alone. */
module CacheTrap {
  import opened CacheTheory
  import opened CacheReplay

  /** The trap, whatever trace it is set in: the sets of keys, when n comes, when l is needed next, and when q is. */
  datatype Trap = Trap(touched: seq<set<Key>>, firsts: set<Key>, q: set<Key>, l: set<Key>, n: set<Key>, iN: nat,
                       iL: nat, iQ: nat, k: nat) {
    ghost function Full(): set<Key> { firsts + q }

    ghost function Swapped(): set<Key> { Full() - l + n }

    ghost predicate Ordered() {
      && iN < iL < iQ < |touched|
      && touched[iN] == n && touched[iL] == l && touched[iQ] == q && n != {} && l != {}
      && q !! firsts && n !! Full() && l <= firsts
    }

    /** What batch i touches. */
    ghost predicate Touches(i: nat)
      requires i < |touched|
    {
      && (i != iN ==> touched[i] <= Full())
      && (iN < i < iL ==> touched[i] !! l)
      && (iN < i < iQ ==> touched[i] !! q)
      && |touched[i]| == k
    }

    /** Everything was there before n, and all but l is needed before l. */
    ghost predicate Set() {
      && Ordered()
      && (forall i {:trigger Touches(i)} :: 0 <= i < |touched| ==> Touches(i))
      && Seen(touched, iN) == Full()
      && (forall x {:trigger Near(x)} :: x in firsts ==> Near(x))
    }

    ghost predicate Near(x: Key)
      requires iN < |touched|
    {
      x !in l ==> NextFrom(touched, x, iN + 1) < iL
    }

    /** Seen from batch i, x was touched at most once, or at least twice. */
    ghost predicate Rare(x: Key, i: nat)
      requires i < |touched|
    {
      Uses(touched, x, i + 1) <= 1
    }

    ghost predicate Often(x: Key, i: nat)
      requires i < |touched|
    {
      Uses(touched, x, i + 1) >= 2
    }

    /** When n comes, l is the rarest of all, and when l is back, n is. */
    ghost predicate Counted()
      requires iN < |touched| && iL < |touched|
    {
      && (forall x {:trigger Rare(x, iN)} :: x in l ==> Rare(x, iN))
      && (forall x {:trigger Rare(x, iL)} :: x in n ==> Rare(x, iL))
      && (forall x {:trigger Often(x, iN)} :: x in Full() && x !in l ==> Often(x, iN))
      && (forall x {:trigger Often(x, iL)} :: x in Full() && x !in l ==> Often(x, iL))
    }

    ghost predicate Priced(c: Costs, budget: int) {
      && c.NonNegative() && (forall x :: x in l + n ==> c.Of(x) > 0)
      && Sum(Full(), c) == budget && Sum(Swapped(), c) == budget
      && Sum(firsts + n, c) > budget
    }
  }

  /** What the first n batches touch. */
  ghost function Seen(touched: seq<set<Key>>, n: nat): set<Key>
    requires n <= |touched|
  {
    if n == 0 then {} else Seen(touched, n - 1) + touched[n - 1]
  }

  lemma {:induction false} SeenGrows(touched: seq<set<Key>>, i: nat, n: nat)
    requires i <= n <= |touched|
    ensures Seen(touched, i) <= Seen(touched, n) && (i < n ==> touched[i] <= Seen(touched, n))
    decreases n
  {
    if i < n {
      SeenGrows(touched, i, n - 1);
    }
  }

  // ---- the better run ----

  /** Drops all of l for n, and then all of n for l. */
  ghost function Resident(t: Trap, i: nat): set<Key>
    requires i <= |t.touched|
  {
    if i <= t.iN then Seen(t.touched, i) else if i <= t.iL then t.Swapped() else t.Full()
  }

  ghost function Better(t: Trap): (sched: seq<set<Key>>)
    ensures |sched| == |t.touched| + 1 && forall i :: 0 <= i <= |t.touched| ==> sched[i] == Resident(t, i)
  {
    seq(|t.touched| + 1, i requires 0 <= i <= |t.touched| => Resident(t, i))
  }

  lemma BetterFits(t: Trap, c: Costs, budget: int, i: nat)
    requires t.Set() && t.Priced(c, budget) && i <= |t.touched|
    ensures Sum(Resident(t, i), c) <= budget
  {
    if i <= t.iN {
      SeenGrows(t.touched, i, t.iN);
      SumMonotonic(Resident(t, i), t.Full(), c);
    }
  }

  lemma BetterIsStep(t: Trap, i: nat)
    requires t.Set() && i < |t.touched|
    ensures t.touched[i] <= Resident(t, i + 1) <= Resident(t, i) + t.touched[i]
    ensures i == t.iN ==> t.l !! Resident(t, i + 1) && t.l <= Resident(t, i)
    ensures i == t.iL ==> t.n !! Resident(t, i + 1) && t.n <= Resident(t, i)
    ensures i != t.iN && i != t.iL ==> Resident(t, i + 1) == Resident(t, i) + t.touched[i]
  {
    if i == t.iN || i == t.iL {
      assert t.Ordered();
    } else if i > t.iN {
      BetterKeeps(t, i);
    }
  }

  lemma BetterKeeps(t: Trap, i: nat)
    requires t.Set() && t.iN < i < |t.touched| && i != t.iL
    ensures t.touched[i] <= Resident(t, i) && Resident(t, i + 1) == Resident(t, i)
  {
    assert t.Touches(i);
  }

  // ---- every way lfu has ----

  /** One batch of lfu. */
  ghost predicate LfuStep(c: Costs, budget: int, nLayer: int, touched: seq<set<Key>>, sched: seq<set<Key>>, i: nat)
    requires i < |touched| && i + 1 < |sched|
  {
    var r, r' := sched[i], sched[i + 1];
    exists layer: int, last: map<Key, int> :: ReplayStep(Lfu, c, budget, nLayer, layer, touched, last, r, i, r')
  }

  ghost predicate LfuRun(c: Costs, budget: int, nLayer: int, touched: seq<set<Key>>, sched: seq<set<Key>>) {
    && |sched| == |touched| + 1 && sched[0] == {}
    && forall i {:trigger LfuStep(c, budget, nLayer, touched, sched, i)} :: 0 <= i < |touched| ==>
         LfuStep(c, budget, nLayer, touched, sched, i)
  }

  lemma LfuRuns(c: Costs, budget: int, nLayer: int, batches: seq<LayerBatch>, sched: seq<set<Key>>)
    requires Replays(Lfu, c, budget, nLayer, batches, sched)
    ensures LfuRun(c, budget, nLayer, TouchedSets(AllKeys(batches)), sched)
  {
    var touched := TouchedSets(AllKeys(batches));
    forall i | 0 <= i < |touched|
      ensures LfuStep(c, budget, nLayer, touched, sched, i)
    {
      StepOf(Lfu, c, budget, nLayer, batches, sched, i);
    }
  }

  /** A global policy keeps what it would rather drop last, as far as that fits beside what is touched. */
  lemma KeepsLast(policy: Policy, c: Costs, budget: int, nLayer: int, layer: int, touched: seq<set<Key>>,
                  last: map<Key, int>, r: set<Key>, i: nat, r': set<Key>, keep: set<Key>)
    requires i < |touched| && !policy.Partitioned() && c.NonNegative()
    requires ReplayStep(policy, c, budget, nLayer, layer, touched, last, r, i, r')
    requires keep <= r + touched[i] && Sum(keep + touched[i], c) <= budget
    requires forall x, y :: x in keep - touched[i] && y in r + touched[i] - keep - touched[i] ==>
               !GoesFirst(policy, touched, last, i, x, y)
    ensures keep <= r'
  {
    var t, s := touched[i], r + touched[i];
    if x :| x in keep && x !in r' {
      var w :| LastDrop(policy, c, budget, layer, touched, last, i, s, r', w);
      assert GoesFirst(policy, touched, last, i, x, w);
      assert w in keep;
      forall y | y in r'
        ensures y in keep + t
      {
        assert Candidate(policy, layer, y);
      }
      SumMonotonic(r' + {w}, keep + t, c);
    }
  }

  /** When the rest just fits, lfu drops exactly the group that was used least. */
  lemma DropsTheRarest(t: Trap, c: Costs, budget: int, nLayer: int, layer: int, last: map<Key, int>, r: set<Key>,
                       i: nat, r': set<Key>, gone: set<Key>, keep: set<Key>)
    requires i < |t.touched| && c.NonNegative()
    requires ReplayStep(Lfu, c, budget, nLayer, layer, t.touched, last, r, i, r')
    requires t.touched[i] <= keep && r + t.touched[i] == keep + gone && gone !! keep
    requires Sum(keep, c) == budget && forall y :: y in gone ==> c.Of(y) > 0 && t.Rare(y, i)
    requires forall x :: x in keep && x !in t.touched[i] ==> t.Often(x, i)
    ensures r' == keep
  {
    assert keep + t.touched[i] == keep;
    KeepsLast(Lfu, c, budget, nLayer, layer, t.touched, last, r, i, r', keep);
    assert keep <= r';
    if y :| y in gone && y in r' {
      SumAdd(keep, c, y);
      SumMonotonic(keep + {y}, r', c);
      assert Candidate(Lfu, layer, y);
    }
  }

  /** Every run of lfu is the better run. */
  lemma {:induction false} LfuIsBetter(t: Trap, c: Costs, budget: int, nLayer: int, sched: seq<set<Key>>, n: nat)
    requires t.Set() && t.Counted() && t.Priced(c, budget) && LfuRun(c, budget, nLayer, t.touched, sched)
    requires n <= |t.touched|
    ensures sched[n] == Resident(t, n)
  {
    if n > 0 {
      LfuIsBetter(t, c, budget, nLayer, sched, n - 1);
      assert LfuStep(c, budget, nLayer, t.touched, sched, n - 1);
      var layer, last :| ReplayStep(Lfu, c, budget, nLayer, layer, t.touched, last, sched[n - 1], n - 1, sched[n]);
      LfuStays(t, c, budget, nLayer, layer, last, sched[n - 1], n - 1, sched[n]);
    }
  }

  lemma LfuStays(t: Trap, c: Costs, budget: int, nLayer: int, layer: int, last: map<Key, int>, r: set<Key>, i: nat,
                 r': set<Key>)
    requires t.Set() && t.Counted() && t.Priced(c, budget) && i < |t.touched| && r == Resident(t, i)
    requires ReplayStep(Lfu, c, budget, nLayer, layer, t.touched, last, r, i, r')
    ensures r' == Resident(t, i + 1)
  {
    BetterIsStep(t, i);
    BetterFits(t, c, budget, i + 1);
    if i == t.iN {
      DropsTheRarest(t, c, budget, nLayer, layer, last, r, i, r', t.l, Resident(t, i + 1));
    } else if i == t.iL {
      DropsTheRarest(t, c, budget, nLayer, layer, last, r, i, r', t.n, Resident(t, i + 1));
    } else {
      StepKeepsBudget(Lfu, c, budget, nLayer, layer, t.touched, last, r, i, r');
      DropsNothing(c, budget, r, t.touched[i], r');
    }
  }

  // ---- every way belady has ----

  /** One batch of belady, told by what the theory needs. */
  ghost predicate FarStep(c: Costs, budget: int, touched: seq<set<Key>>, sched: seq<set<Key>>, i: nat)
    requires i < |touched| && i + 1 < |sched|
  {
    BudgetStep(c, budget, sched[i], touched[i], sched[i + 1]) && DropsFurthest(touched, i, sched[i], sched[i + 1])
  }

  ghost predicate FarRun(c: Costs, budget: int, touched: seq<set<Key>>, sched: seq<set<Key>>) {
    && |sched| == |touched| + 1 && sched[0] == {}
    && forall i {:trigger FarStep(c, budget, touched, sched, i)} :: 0 <= i < |touched| ==>
         FarStep(c, budget, touched, sched, i)
  }

  lemma BeladyIsFar(c: Costs, budget: int, nLayer: int, batches: seq<LayerBatch>, sched: seq<set<Key>>)
    requires Replays(Belady, c, budget, nLayer, batches, sched)
    ensures FarRun(c, budget, TouchedSets(AllKeys(batches)), sched)
  {
    var touched := TouchedSets(AllKeys(batches));
    forall i | 0 <= i < |touched|
      ensures FarStep(c, budget, touched, sched, i)
    {
      StepOf(Belady, c, budget, nLayer, batches, sched, i);
      StepIsFar(c, budget, nLayer, batches[i].layer, touched, StampsAt(AllKeys(batches), i + 1).0, sched, i);
    }
  }

  lemma StepIsFar(c: Costs, budget: int, nLayer: int, layer: int, touched: seq<set<Key>>, last: map<Key, int>,
                  sched: seq<set<Key>>, i: nat)
    requires i < |touched| && i + 1 < |sched|
    requires ReplayStep(Belady, c, budget, nLayer, layer, touched, last, sched[i], i, sched[i + 1])
    ensures FarStep(c, budget, touched, sched, i)
  {
    StepKeepsBudget(Belady, c, budget, nLayer, layer, touched, last, sched[i], i, sched[i + 1]);
    StepDropsFurthest(c, budget, nLayer, layer, touched, last, sched[i], i, sched[i + 1]);
  }

  /** While everything seen fits, nothing is dropped. */
  lemma {:induction false} KeepsAllSeen(c: Costs, budget: int, touched: seq<set<Key>>, sched: seq<set<Key>>, n: nat,
                                        m: nat)
    requires n <= m <= |touched| && c.NonNegative() && Sum(Seen(touched, m), c) <= budget
    requires FarRun(c, budget, touched, sched)
    ensures sched[n] == Seen(touched, n)
  {
    if n > 0 {
      KeepsAllSeen(c, budget, touched, sched, n - 1, m);
      assert FarStep(c, budget, touched, sched, n - 1);
      SeenGrows(touched, n, m);
      SumMonotonic(Seen(touched, n), Seen(touched, m), c);
      DropsNothing(c, budget, sched[n - 1], touched[n - 1], sched[n]);
    }
  }

  lemma DropsNothing(c: Costs, budget: int, r: set<Key>, t: set<Key>, r': set<Key>)
    requires c.NonNegative() && BudgetStep(c, budget, r, t, r') && Sum(r + t, c) <= budget
    ensures r' == r + t
  {
    if r' != r + t {
      var w :| w in r + t - r' && Sum(r' + {w}, c) > budget;
      SumMonotonic(r' + {w}, r + t, c);
    }
  }

  /** When n comes, belady drops q, which is needed last, and some of l, before which everything else is needed. */
  lemma BeladyDropsQ(t: Trap, c: Costs, budget: int, sched: seq<set<Key>>)
    requires t.Set() && t.Priced(c, budget) && FarRun(c, budget, t.touched, sched)
    ensures sched[t.iN + 1] !! t.q && !(t.l <= sched[t.iN + 1])
  {
    KeepsAllSeen(c, budget, t.touched, sched, t.iN, t.iN);
    assert FarStep(c, budget, t.touched, sched, t.iN);
    NotAllFirsts(t, c, budget, sched[t.iN + 1]);
    DropsFromTheBack(t, sched[t.iN + 1]);
  }

  /** The first groups do not fit beside n. */
  lemma NotAllFirsts(t: Trap, c: Costs, budget: int, r: set<Key>)
    requires t.Ordered() && t.Priced(c, budget) && t.n <= r && (Sum(r, c) <= budget || r == t.n)
    ensures !(t.firsts <= r)
  {
    if t.firsts <= r && Sum(r, c) <= budget {
      SumMonotonic(t.firsts + t.n, r, c);
    }
  }

  lemma DropsFromTheBack(t: Trap, r: set<Key>)
    requires t.Set() && !(t.firsts <= r) && DropsFurthest(t.touched, t.iN, t.Full(), r)
    ensures r !! t.q && !(t.l <= r)
  {
    var gone :| gone in t.firsts && gone !in r;
    LIsNext(t, gone);
    forall x | x in t.q
      ensures x !in r
    {
      QIsFar(t, x);
      NotKept(t, r, x, gone);
    }
    if t.l <= r {
      var x := Pick(t.l);
      LIsNext(t, x);
      NotKept(t, r, x, gone);
    }
  }

  /** What is needed later than something dropped is dropped. */
  lemma NotKept(t: Trap, r: set<Key>, x: Key, gone: Key)
    requires t.Ordered() && x !in t.n && gone in t.firsts && gone !in r && DropsFurthest(t.touched, t.iN, t.Full(), r)
    requires NextFrom(t.touched, x, t.iN + 1) > NextFrom(t.touched, gone, t.iN + 1)
    ensures x !in r
  {
    var kept, dropped := r - t.touched[t.iN], t.Full() + t.touched[t.iN] - r;
    assert gone in dropped;
    assert x in r ==> x in kept;
  }

  /** Seen from n, what is in the first groups is needed by the time l is, and l then. */
  lemma LIsNext(t: Trap, x: Key)
    requires t.Set() && x in t.firsts
    ensures NextFrom(t.touched, x, t.iN + 1) <= t.iL
    ensures x in t.l ==> NextFrom(t.touched, x, t.iN + 1) == t.iL
    ensures x !in t.l ==> NextFrom(t.touched, x, t.iN + 1) < t.iL
  {
    if x in t.l {
      assert x in t.touched[t.iL];
      IsNext(t, x, t.iL, t.l);
    } else {
      assert t.Near(x);
    }
  }

  lemma QIsFar(t: Trap, x: Key)
    requires t.Set() && x in t.q
    ensures NextFrom(t.touched, x, t.iN + 1) == t.iQ
  {
    IsNext(t, x, t.iQ, t.q);
  }

  /** Neither l nor q is touched before its time. */
  lemma IsNext(t: Trap, x: Key, i: nat, group: set<Key>)
    requires t.Set() && x in group && ((i == t.iL && group == t.l) || (i == t.iQ && group == t.q))
    ensures NextFrom(t.touched, x, t.iN + 1) == i
    ensures forall j :: t.iN < j < i ==> x !in t.touched[j]
  {
    forall j | t.iN < j < i
      ensures x !in t.touched[j]
    {
      assert t.Touches(j);
    }
    NextFromIsFirst(t.touched, x, t.iN + 1);
  }

  // ---- the hits ----

  /** What is out stays out until it is touched. */
  lemma {:induction false} StaysOut(c: Costs, budget: int, touched: seq<set<Key>>, sched: seq<set<Key>>, x: Key, i: nat,
                                    n: nat)
    requires i <= n <= |touched| && FarRun(c, budget, touched, sched)
    requires x !in sched[i] && forall j :: i <= j < n ==> x !in touched[j]
    ensures x !in sched[n]
    decreases n
  {
    if i < n {
      StaysOut(c, budget, touched, sched, x, i, n - 1);
      assert FarStep(c, budget, touched, sched, n - 1);
    }
  }

  lemma BeladyMisses(t: Trap, c: Costs, budget: int, sched: seq<set<Key>>)
    requires t.Set() && t.Priced(c, budget) && FarRun(c, budget, t.touched, sched)
    ensures !(t.l <= sched[t.iL]) && sched[t.iQ] !! t.q
  {
    BeladyDropsQ(t, c, budget, sched);
    var i := t.iN + 1;
    var l :| l in t.l && l !in sched[i];
    IsNext(t, l, t.iL, t.l);
    StaysOut(c, budget, t.touched, sched, l, i, t.iL);
    forall x | x in t.q
      ensures x !in sched[t.iQ]
    {
      IsNext(t, x, t.iQ, t.q);
      StaysOut(c, budget, t.touched, sched, x, i, t.iQ);
    }
  }

  lemma {:induction false} SameHits(touched: seq<set<Key>>, a: seq<set<Key>>, b: seq<set<Key>>, n: nat)
    requires n <= |touched| && n <= |a| && n <= |b| && forall i :: 0 <= i < n ==> a[i] == b[i]
    ensures Hits(touched, a, n) == Hits(touched, b, n)
  {
    if n > 0 {
      SameHits(touched, a, b, n - 1);
    }
  }

  /** Once n is in: belady is ahead by less than a group when l is back, and behind when q is. */
  lemma {:induction false} FallsBehind(t: Trap, belady: seq<set<Key>>, n: nat)
    requires t.Set() && t.iN < n <= |t.touched| < |belady|
    requires forall i :: 0 <= i <= t.iN ==> belady[i] == Seen(t.touched, i)
    requires !(t.l <= belady[t.iL]) && belady[t.iQ] !! t.q
    ensures Hits(t.touched, belady, n) - Hits(t.touched, Better(t), n)
            <= (if n > t.iL then t.k - 1 else 0) - (if n > t.iQ then t.k else 0)
  {
    if n == t.iN + 1 {
      SameHits(t.touched, belady, Better(t), n);
    } else {
      FallsBehind(t, belady, n - 1);
      BatchAfterN(t, belady[n - 1], n - 1);
    }
  }

  /** The hits of one batch after n. */
  lemma BatchAfterN(t: Trap, r: set<Key>, i: nat)
    requires t.Set() && t.iN < i < |t.touched|
    requires i == t.iL ==> !(t.l <= r)
    requires i == t.iQ ==> r !! t.q
    ensures |r * t.touched[i]| <= if i == t.iL then t.k - 1 else if i == t.iQ then 0 else t.k
    ensures i != t.iL ==> |Resident(t, i) * t.touched[i]| == t.k
  {
    assert t.Touches(i);
    var batch := t.touched[i];
    SubsetSize(r * batch, batch);
    if i == t.iL {
      var l := Pick(t.l - r);
      SubsetSize(r * batch, batch - {l});
    } else {
      assert Resident(t, i) * batch == batch;
    }
    if i == t.iQ {
      assert r * batch == {};
    }
  }

  /** Belady, however it breaks its ties, has fewer hits than the better run. */
  lemma TrapIsPassed(t: Trap, c: Costs, budget: int, belady: seq<set<Key>>)
    requires t.Set() && t.Priced(c, budget) && FarRun(c, budget, t.touched, belady)
    ensures Hits(t.touched, belady, |t.touched|) < Hits(t.touched, Better(t), |t.touched|)
  {
    BeladyMisses(t, c, budget, belady);
    forall i | 0 <= i <= t.iN
      ensures belady[i] == Seen(t.touched, i)
    {
      KeepsAllSeen(c, budget, t.touched, belady, i, t.iN);
    }
    FallsBehind(t, belady, |t.touched|);
  }

  lemma LfuPasses(t: Trap, c: Costs, budget: int, nLayer: int, belady: seq<set<Key>>, lfu: seq<set<Key>>)
    requires t.Set() && t.Counted() && t.Priced(c, budget)
    requires FarRun(c, budget, t.touched, belady) && LfuRun(c, budget, nLayer, t.touched, lfu)
    ensures Hits(t.touched, belady, |t.touched|) < Hits(t.touched, lfu, |t.touched|)
  {
    TrapIsPassed(t, c, budget, belady);
    forall i | 0 <= i < |t.touched|
      ensures lfu[i] == Better(t)[i]
    {
      LfuIsBetter(t, c, budget, nLayer, lfu, i);
    }
    SameHits(t.touched, lfu, Better(t), |t.touched|);
  }

  // ---- counting uses ----

  lemma UsesTwo(touched: seq<set<Key>>, x: Key, i: nat, j: nat, n: nat)
    requires i < j < n <= |touched| && x in touched[i] && x in touched[j]
    ensures Uses(touched, x, n) >= 2
  {
    OccurrencesAreAll(touched, x, n);
    var occ := Occurrences(touched, x, n);
    assert i in occ && j in occ;
  }

  lemma {:induction false} UsesAtMostOne(touched: seq<set<Key>>, x: Key, n: nat)
    requires n <= |touched|
    requires forall i, j :: 0 <= i < j < n ==> !(x in touched[i] && x in touched[j])
    ensures Uses(touched, x, n) <= 1
  {
    if n > 0 {
      UsesAtMostOne(touched, x, n - 1);
      if x in touched[n - 1] {
        UsesNone(touched, x, n - 1);
      }
    }
  }

  lemma {:induction false} UsesNone(touched: seq<set<Key>>, x: Key, n: nat)
    requires n <= |touched| && forall i :: 0 <= i < n ==> x !in touched[i]
    ensures Uses(touched, x, n) == 0
  {
    if n > 0 {
      UsesNone(touched, x, n - 1);
    }
  }
}
