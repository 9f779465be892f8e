/** A trace of the engine's shape on which every lfu replay has more hits than every belady replay, for any expert
    layers of which two have experts of different sizes, and any number of experts per token.

    The layer of the smaller experts loads two groups of k of them, p and q, and the layer of the larger ones
    loads three, l, m and n; every other layer loads one group for every token:

        token      0   1   2   3   4   5   6   7
        smaller    p   q   p   q   p   p   p   q
        larger     l   m   m   m   n   m   l   l

    The budget holds the other layers, p, q, l and m. When n comes, l has been used once and everything else more
    often, and q is needed last. Belady drops q, and as that does not make enough room, some of l as well. Lfu drops
    l, and when l is back, n. */
module CacheMix {
  import opened CacheTheory
  import opened CacheReplay
  import opened CacheTraces
  import opened CacheTrap

  const TOKENS := 8

  /** The expert layers in order, the places of the two that differ, and the experts per token. */
  datatype Mix = Mix(order: seq<int>, small: nat, large: nat, k: nat) {
    ghost predicate Ok() {
      small < |order| && large < |order| && small != large && k > 0 && Distinct(order)
    }

    /** The group that a token loads at a place: p, l and those of the other layers are 0, q and n are 1, m is 2. */
    function GroupOf(tok: nat, p: nat): (g: nat)
      ensures g <= 2
    {
      if p == small then (if tok == 1 || tok == 3 || tok == 7 then 1 else 0)
      else if p == large then (if tok == 0 || tok >= 6 then 0 else if tok == 4 then 1 else 2)
      else 0
    }

    function First(g: nat): nat { if g == 0 then 0 else if g == 1 then k else k + k }

    function Group(p: nat, g: nat): set<Key>
      requires p < |order|
    {
      Range(order[p], First(g), k)
    }

    function Ids(g: nat): (ids: seq<int>)
      ensures |ids| == k && forall e :: 0 <= e < k ==> ids[e] == First(g) + e
    {
      seq(k, e => First(g) + e)
    }

    function Len(): nat { Start(|order|, TOKENS) }

    function At(tok: nat, p: nat): nat { Start(|order|, tok) + p }

    function Batches(): (batches: seq<LayerBatch>)
      requires order != []
      ensures |batches| == Len()
      ensures forall i :: 0 <= i < |batches| ==> batches[i] == BatchOf(i)
    {
      seq(Len(), i requires 0 <= i => BatchOf(i))
    }

    function BatchOf(i: nat): LayerBatch
      requires order != []
    {
      var p := PosOf(|order|, i); LayerBatch(order[p], Ids(GroupOf(TokOf(|order|, i), p)))
    }

    function Touched(): (touched: seq<set<Key>>)
      requires order != []
      ensures |touched| == Len() && forall i :: 0 <= i < |touched| ==> touched[i] == KeysAt(i)
    {
      seq(Len(), i requires 0 <= i => KeysAt(i))
    }

    function KeysAt(i: nat): set<Key>
      requires order != []
    {
      var p := PosOf(|order|, i); Group(p, GroupOf(TokOf(|order|, i), p))
    }
  }

  lemma TouchedIs(w: Mix)
    requires w.order != []
    ensures TouchedSets(AllKeys(w.Batches())) == w.Touched()
  {
    forall i | 0 <= i < w.Len()
      ensures TouchedSets(AllKeys(w.Batches()))[i] == w.Touched()[i]
    {
      var p := PosOf(|w.order|, i);
      BatchTouchesGroup(w, p, w.GroupOf(TokOf(|w.order|, i), p));
    }
  }

  lemma BatchTouchesGroup(w: Mix, p: nat, g: nat)
    requires p < |w.order|
    ensures SetOf(KeysOf(LayerBatch(w.order[p], w.Ids(g)))) == w.Group(p, g)
  {
    var keys := KeysOf(LayerBatch(w.order[p], w.Ids(g)));
    forall x | x in w.Group(p, g)
      ensures x in keys
    {
      assert keys[x.expert - w.First(g)] == x;
    }
  }

  lemma MixIsShaped(w: Mix)
    requires w.Ok()
    ensures IsEngineTrace(w.order, w.k, w.Batches())
  {
    assert |w.Batches()| == Start(|w.order|, TOKENS);
  }

  /** Where batch i stands. */
  lemma Stands(w: Mix, i: nat)
    requires w.Ok() && i < w.Len()
    ensures var m, tok, p := |w.order|, TokOf(|w.order|, i), PosOf(|w.order|, i);
            && tok < TOKENS && i == w.At(tok, p)
            && (tok == 0 ==> i == p) && (tok == 1 ==> i == m + p) && (tok == 2 ==> i == 2 * m + p)
            && (tok == 3 ==> i == 3 * m + p) && (tok == 4 ==> i == 4 * m + p) && (tok == 5 ==> i == 5 * m + p)
            && (tok == 6 ==> i == 6 * m + p) && (tok == 7 ==> i == 7 * m + p)
  {
    var m := |w.order|;
    BatchIs(m, i);
    Starts8(m);
    if TokOf(m, i) >= TOKENS {
      StartGrows(m, TOKENS, TokOf(m, i));
    }
  }

  lemma Starts8(m: nat)
    ensures Start(m, 0) == 0 && Start(m, 1) == m && Start(m, 2) == 2 * m && Start(m, 3) == 3 * m
    ensures Start(m, 4) == 4 * m && Start(m, 5) == 5 * m && Start(m, 6) == 6 * m && Start(m, 7) == 7 * m
    ensures Start(m, TOKENS) == 8 * m
  {
    assert Start(m, 1) == Start(m, 0) + m;
    assert Start(m, 2) == Start(m, 1) + m;
    assert Start(m, 3) == Start(m, 2) + m;
    assert Start(m, 4) == Start(m, 3) + m;
    assert Start(m, 5) == Start(m, 4) + m;
    assert Start(m, 6) == Start(m, 5) + m;
    assert Start(m, 7) == Start(m, 6) + m;
    assert Start(m, 8) == Start(m, 7) + m;
  }

  /** The batch of a token at a place touches that token's group of the layer. */
  lemma LoadedAt(w: Mix, tok: nat, p: nat)
    requires w.Ok() && tok < TOKENS && p < |w.order|
    ensures w.At(tok, p) < w.Len() && w.Touched()[w.At(tok, p)] == w.Group(p, w.GroupOf(tok, p))
  {
    BatchAt(|w.order|, tok, p);
    Starts8(|w.order|);
  }

  // ---- the sets of keys and what they cost ----

  /** The groups 0 of all layers. */
  ghost function Firsts(w: Mix): (s: set<Key>)
    ensures forall x :: x in s <==> x.layer in w.order && 0 <= x.expert < w.k
  {
    var s := set l, e | l in w.order && 0 <= e < w.k :: Key(l, e);
    assert forall x: Key :: x == Key(x.layer, x.expert);
    s
  }

  ghost function L(w: Mix): set<Key>
    requires w.Ok()
  {
    w.Group(w.large, 0)
  }

  ghost function N(w: Mix): set<Key>
    requires w.Ok()
  {
    w.Group(w.large, 1)
  }

  ghost function M(w: Mix): set<Key>
    requires w.Ok()
  {
    w.Group(w.large, 2)
  }

  ghost function Q(w: Mix): set<Key>
    requires w.Ok()
  {
    w.Group(w.small, 1)
  }

  /** Everything but n and q, which is needed again before q is. */
  ghost function Early(w: Mix): set<Key>
    requires w.Ok()
  {
    Firsts(w) + M(w)
  }

  ghost function Full(w: Mix): set<Key>
    requires w.Ok()
  {
    Early(w) + Q(w)
  }

  lemma Apart(w: Mix)
    requires w.Ok()
    ensures Q(w) !! Early(w) && N(w) !! Full(w) && L(w) !! Q(w) && L(w) !! M(w) && L(w) <= Early(w)
  {
    TwoLayers(w);
  }

  lemma TwoLayers(w: Mix)
    requires w.Ok()
    ensures w.order[w.small] != w.order[w.large]
  {
  }

  lemma GroupsCost(w: Mix, c: Costs, unit: nat, p: nat, g: nat)
    requires p < |w.order| && c.Of(Key(w.order[p], 0)) == unit
    ensures |w.Group(p, g)| == w.k && Sum(w.Group(p, g), c) == Times(unit, w.k)
  {
    RangeSize(w.order[p], w.First(g), w.k);
    SumUniform(w.Group(p, g), c, unit);
    TimesIsProduct(unit, w.k);
  }

  lemma {:induction false} TimesGrows(a: nat, b: nat, k: nat)
    requires a < b && k > 0
    ensures Times(a, k) < Times(b, k)
  {
    if k > 1 {
      TimesGrows(a, b, k - 1);
    }
  }

  /** The two sizes. */
  ghost predicate Sized(w: Mix, c: Costs) {
    w.Ok() && c.NonNegative() && 0 < c.Of(Key(w.order[w.small], 0)) < c.Of(Key(w.order[w.large], 0))
  }

  ghost function Budget(w: Mix, c: Costs): int
    requires w.Ok()
  {
    Sum(Full(w), c)
  }

  /** Having n in place of l costs nothing; having it in place of q is too much. */
  lemma BudgetIs(w: Mix, c: Costs)
    requires Sized(w, c)
    ensures Sum(Full(w) - L(w) + N(w), c) == Budget(w, c)
    ensures Sum(Early(w) + N(w), c) > Budget(w, c)
  {
    Apart(w);
    SizesAre(w, c);
    Replaced(Full(w) - L(w), L(w), N(w), c);
    Replaced(Early(w), Q(w), N(w), c);
    assert Full(w) - L(w) + L(w) == Full(w);
  }

  lemma Replaced(s: set<Key>, gone: set<Key>, come: set<Key>, c: Costs)
    requires s !! gone && s !! come
    ensures Sum(s + come, c) - Sum(s + gone, c) == Sum(come, c) - Sum(gone, c)
  {
    SumDisjoint(s, gone, c);
    SumDisjoint(s, come, c);
  }

  lemma SizesAre(w: Mix, c: Costs)
    requires Sized(w, c)
    ensures Sum(Q(w), c) < Sum(N(w), c) == Sum(L(w), c)
  {
    var a, b := c.Of(Key(w.order[w.small], 0)), c.Of(Key(w.order[w.large], 0));
    GroupsCost(w, c, a, w.small, 1);
    GroupsCost(w, c, b, w.large, 0);
    GroupsCost(w, c, b, w.large, 1);
    TimesGrows(a, b, w.k);
  }

  // ---- when the groups are touched ----

  /** When n comes, when l is needed next, and when q is. */
  function WhenN(w: Mix): nat { w.At(4, w.large) }

  function WhenL(w: Mix): nat { w.At(6, w.large) }

  function WhenQ(w: Mix): nat { w.At(7, w.small) }

  lemma Whens(w: Mix)
    requires w.Ok()
    ensures w.large < WhenN(w) < WhenL(w) < WhenQ(w) < w.Len() == |w.Touched()|
    ensures w.Touched()[WhenN(w)] == N(w) && w.Touched()[WhenL(w)] == L(w) && w.Touched()[WhenQ(w)] == Q(w)
  {
    Marks(w);
    LoadedAt(w, 4, w.large);
    LoadedAt(w, 6, w.large);
    LoadedAt(w, 7, w.small);
  }

  lemma Marks(w: Mix)
    requires w.Ok()
    ensures var m := |w.order|;
            && WhenN(w) == 4 * m + w.large && WhenL(w) == 6 * m + w.large && WhenQ(w) == 7 * m + w.small
            && w.Len() == 8 * m
  {
    Starts8(|w.order|);
  }

  /** What the other batches touch. */
  lemma Others(w: Mix, i: nat)
    requires w.Ok() && i < w.Len()
    ensures var t := w.Touched()[i];
            && (i != WhenN(w) ==> t <= Full(w))
            && (i != w.large && i < WhenL(w) ==> t !! L(w))
            && (WhenN(w) < i < WhenQ(w) ==> t !! Q(w))
            && |t| == w.k
  {
    var p := PosOf(|w.order|, i);
    var g := w.GroupOf(TokOf(|w.order|, i), p);
    LoadsWhen(w, i, p, g);
    RangeSize(w.order[p], w.First(g), w.k);
    Which(w, p, g);
  }

  lemma LoadsWhen(w: Mix, i: nat, p: nat, g: nat)
    requires w.Ok() && i < w.Len() && p == PosOf(|w.order|, i) && g == w.GroupOf(TokOf(|w.order|, i), p)
    ensures i != WhenN(w) ==> p != w.large || g != 1
    ensures i != w.large && i < WhenL(w) ==> p != w.large || g != 0
    ensures WhenN(w) < i < WhenQ(w) ==> p != w.small || g != 1
  {
    Stands(w, i);
    Marks(w);
  }

  /** The two layers' groups are apart from each other and from the other layers. */
  lemma Which(w: Mix, p: nat, g: nat)
    requires w.Ok() && p < |w.order| && g <= 2 && (g == 0 || (p == w.small && g == 1) || p == w.large)
    ensures var t := w.Group(p, g);
            && (p != w.large || g != 1 ==> t <= Full(w))
            && (p != w.large || g != 0 ==> t !! L(w))
            && (p != w.small || g != 1 ==> t !! Q(w))
  {
    if p != w.large {
      assert w.order[p] != w.order[w.large];
    }
    if p != w.small {
      assert w.order[p] != w.order[w.small];
    }
  }

  /** A key of a group is touched when a token loads the group. */
  lemma Loads(w: Mix, x: Key, tok: nat, p: nat)
    requires w.Ok() && tok < TOKENS && p < |w.order| && x in w.Group(p, w.GroupOf(tok, p))
    ensures w.At(tok, p) < |w.Touched()| && x in w.Touched()[w.At(tok, p)]
  {
    LoadedAt(w, tok, p);
  }

  /** What n finds there, l apart, was touched twice before. */
  lemma TwoTouches(w: Mix, x: Key) returns (i: nat, j: nat)
    requires w.Ok() && x in Full(w) && x !in L(w)
    ensures i < j < WhenN(w) < |w.Touched()| && x in w.Touched()[i] && x in w.Touched()[j]
  {
    var p, a, b := TouchingTokens(w, x);
    Loads(w, x, a, p);
    Loads(w, x, b, p);
    Before(w, a, b, p);
    i, j := w.At(a, p), w.At(b, p);
  }

  lemma Before(w: Mix, a: nat, b: nat, p: nat)
    requires w.Ok() && a < b < 4 && p < |w.order|
    ensures w.At(a, p) < w.At(b, p) < WhenN(w) < w.Len()
  {
    Starts8(|w.order|);
  }

  lemma TouchingTokens(w: Mix, x: Key) returns (p: nat, a: nat, b: nat)
    requires w.Ok() && x in Full(w) && x !in L(w)
    ensures p < |w.order| && a < 2 && 2 <= b < 4
    ensures x in w.Group(p, w.GroupOf(a, p)) && x in w.Group(p, w.GroupOf(b, p))
  {
    if x in Q(w) {
      p, a, b := w.small, 1, 3;
    } else if x in M(w) {
      p, a, b := w.large, 1, 2;
    } else {
      p :| 0 <= p < |w.order| && w.order[p] == x.layer;
      a, b := 0, 2;
    }
  }

  /** Seen from n, everything but q is loaded again before l. */
  lemma NextTouch(w: Mix, x: Key) returns (i: nat)
    requires w.Ok() && x in Early(w) && x !in L(w)
    ensures WhenN(w) < i < WhenL(w) && i < |w.Touched()| && x in w.Touched()[i]
  {
    Whens(w);
    Marks(w);
    var p, tok := NextToken(w, x);
    Loads(w, x, tok, p);
    Starts8(|w.order|);
    i := w.At(tok, p);
  }

  lemma NextToken(w: Mix, x: Key) returns (p: nat, tok: nat)
    requires w.Ok() && x in Early(w) && x !in L(w)
    ensures p < |w.order| && x in w.Group(p, w.GroupOf(tok, p)) && tok == if p > w.large then 4 else 5
  {
    if x in M(w) {
      p := w.large;
    } else {
      p :| 0 <= p < |w.order| && w.order[p] == x.layer;
    }
    tok := if p > w.large then 4 else 5;
  }

  // ---- the trace sets the trap ----

  ghost function TrapOf(w: Mix): Trap
    requires w.Ok()
  {
    Trap(w.Touched(), Early(w), Q(w), L(w), N(w), WhenN(w), WhenL(w), WhenQ(w), w.k)
  }

  lemma TrapIsOrdered(w: Mix)
    requires w.Ok()
    ensures TrapOf(w).Ordered()
  {
    Whens(w);
    Apart(w);
    assert Key(w.order[w.large], 0) in L(w) && Key(w.order[w.large], w.k) in N(w);
  }

  lemma TrapIsSet(w: Mix)
    requires w.Ok()
    ensures TrapOf(w).Set()
  {
    TrapIsOrdered(w);
    SeenIsFull(w);
    forall i | 0 <= i < |w.Touched()|
      ensures TrapOf(w).Touches(i)
    {
      TrapTouches(w, i);
    }
    forall x | x in Early(w)
      ensures TrapOf(w).Near(x)
    {
      TrapIsNear(w, x);
    }
  }

  lemma TrapTouches(w: Mix, i: nat)
    requires w.Ok() && i < w.Len()
    ensures TrapOf(w).Touches(i)
  {
    Whens(w);
    Others(w, i);
  }

  lemma TrapIsNear(w: Mix, x: Key)
    requires w.Ok() && x in Early(w) && WhenN(w) < |w.Touched()|
    ensures TrapOf(w).Near(x)
  {
    if x !in L(w) {
      EarlyIsNear(w, w.Touched(), x);
    }
  }

  lemma EarlyIsNear(w: Mix, touched: seq<set<Key>>, x: Key)
    requires w.Ok() && x in Early(w) && x !in L(w) && touched == w.Touched()
    ensures WhenN(w) < |touched| && NextFrom(touched, x, WhenN(w) + 1) < WhenL(w)
  {
    var i := NextTouch(w, x);
    NextFromIsFirst(touched, x, WhenN(w) + 1);
  }

  /** When n comes, everything else has been there. */
  lemma SeenIsFull(w: Mix)
    requires w.Ok()
    ensures WhenN(w) < |w.Touched()| && Seen(w.Touched(), WhenN(w)) == Full(w)
  {
    Whens(w);
    forall i | 0 <= i < WhenN(w)
      ensures w.Touched()[i] <= Full(w)
    {
      Others(w, i);
    }
    SeenWithin(w.Touched(), WhenN(w), Full(w));
    forall x | x in Full(w)
      ensures x in Seen(w.Touched(), WhenN(w))
    {
      IsSeen(w, x);
    }
  }

  lemma IsSeen(w: Mix, x: Key)
    requires w.Ok() && WhenN(w) < |w.Touched()| && x in Full(w)
    ensures x in Seen(w.Touched(), WhenN(w))
  {
    var i;
    if x in L(w) {
      Whens(w);
      Loads(w, x, 0, w.large);
      i := w.At(0, w.large);
    } else {
      var j;
      i, j := TwoTouches(w, x);
    }
    SeenGrows(w.Touched(), i, WhenN(w));
  }

  lemma {:induction false} SeenWithin(touched: seq<set<Key>>, n: nat, all: set<Key>)
    requires n <= |touched| && forall i :: 0 <= i < n ==> touched[i] <= all
    ensures Seen(touched, n) <= all
  {
    if n > 0 {
      SeenWithin(touched, n - 1, all);
    }
  }

  lemma TrapIsCounted(w: Mix)
    requires w.Ok() && WhenN(w) < WhenL(w) < |w.Touched()|
    ensures TrapOf(w).Counted()
  {
    var t := TrapOf(w);
    forall x | x in t.l
      ensures t.Rare(x, t.iN)
    {
      LIsRare(w, w.Touched(), x);
    }
    forall x | x in t.n
      ensures t.Rare(x, t.iL)
    {
      NIsRare(w, w.Touched(), x);
    }
    forall x | x in t.Full() && x !in t.l
      ensures t.Often(x, t.iN) && t.Often(x, t.iL)
    {
      OthersAreNot(w, w.Touched(), x);
    }
  }

  lemma LIsRare(w: Mix, touched: seq<set<Key>>, x: Key)
    requires w.Ok() && touched == w.Touched() && x in L(w) && WhenN(w) < |touched|
    ensures Uses(touched, x, WhenN(w) + 1) <= 1
  {
    Whens(w);
    forall i | 0 <= i <= WhenN(w) && i != w.large
      ensures x !in touched[i]
    {
      Others(w, i);
    }
    UsesAtMostOne(touched, x, WhenN(w) + 1);
  }

  lemma NIsRare(w: Mix, touched: seq<set<Key>>, x: Key)
    requires w.Ok() && touched == w.Touched() && x in N(w) && WhenN(w) < WhenL(w) < |touched|
    ensures Uses(touched, x, WhenL(w) + 1) <= 1
  {
    Apart(w);
    forall i | 0 <= i <= WhenL(w) && i != WhenN(w)
      ensures x !in touched[i]
    {
      Others(w, i);
    }
    UsesAtMostOne(touched, x, WhenL(w) + 1);
  }

  lemma OthersAreNot(w: Mix, touched: seq<set<Key>>, x: Key)
    requires w.Ok() && touched == w.Touched() && x in Full(w) && x !in L(w) && WhenN(w) < WhenL(w) < |touched|
    ensures Uses(touched, x, WhenN(w) + 1) >= 2 && Uses(touched, x, WhenL(w) + 1) >= 2
  {
    var i, j := TwoTouches(w, x);
    UsesTwo(touched, x, i, j, WhenN(w) + 1);
    UsesTwo(touched, x, i, j, WhenL(w) + 1);
  }

  lemma TrapIsPriced(w: Mix, c: Costs)
    requires Sized(w, c)
    ensures TrapOf(w).Priced(c, Budget(w, c))
  {
    BudgetIs(w, c);
  }

  /** Whatever the two sizes are, and however belady breaks its ties: lfu has more hits on this trace. */
  lemma MixedSizesPass(w: Mix, c: Costs, nLayer: int, belady: seq<set<Key>>, lfu: seq<set<Key>>)
    requires Sized(w, c)
    requires Replays(Belady, c, Budget(w, c), nLayer, w.Batches(), belady)
    requires Replays(Lfu, c, Budget(w, c), nLayer, w.Batches(), lfu)
    ensures IsEngineTrace(w.order, w.k, w.Batches())
    ensures var touched := TouchedSets(AllKeys(w.Batches()));
            Hits(touched, belady, |touched|) < Hits(touched, lfu, |touched|)
  {
    MixIsShaped(w);
    TouchedIs(w);
    BeladyIsFar(c, Budget(w, c), nLayer, w.Batches(), belady);
    LfuRuns(c, Budget(w, c), nLayer, w.Batches(), lfu);
    MixIsPassed(w, c, nLayer, belady, lfu);
  }

  lemma MixIsPassed(w: Mix, c: Costs, nLayer: int, belady: seq<set<Key>>, lfu: seq<set<Key>>)
    requires Sized(w, c) && FarRun(c, Budget(w, c), w.Touched(), belady)
    requires LfuRun(c, Budget(w, c), nLayer, w.Touched(), lfu)
    ensures Hits(w.Touched(), belady, |w.Touched()|) < Hits(w.Touched(), lfu, |w.Touched()|)
  {
    var t := TrapOf(w);
    Whens(w);
    TrapIsSet(w);
    TrapIsCounted(w);
    TrapIsPriced(w, c);
    LfuPasses(t, c, Budget(w, c), nLayer, belady, lfu);
  }
}
