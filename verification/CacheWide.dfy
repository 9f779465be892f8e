/** A trace of the engine's shape whose prefill is wider than its decode. In the first pass every layer loads w
    experts, and every later token k of the newest of these, a window that moves on by one. A partitioned cache
    that holds `held` entries of a layer keeps just those windows; a global cache in which the last layer of the
    prefill crowds out the others cannot. */
module CacheWide {
  import opened Basics
  import opened CacheTheory
  import opened CacheReplay
  import opened CacheSweep
  import opened CacheTraces
  import CacheOrder

  datatype Wide = Wide(order: seq<int>, k: nat, w: nat, held: nat) {
    ghost predicate Ok() {
      order != [] && Distinct(order) && 0 < k <= held <= w
    }

    function Tokens(): nat
      requires k <= held
    {
      held - k + 2
    }

    function First(tok: nat): nat
      requires held <= w
    {
      if tok == 0 then 0 else w - held + tok - 1
    }

    function Width(tok: nat): nat { if tok == 0 then w else k }

    function Ids(tok: nat): (ids: seq<int>)
      requires held <= w
      ensures |ids| == Width(tok) && forall e :: 0 <= e < |ids| ==> ids[e] == First(tok) + e
    {
      seq(Width(tok), e => First(tok) + e)
    }

    function Len(): nat
      requires k <= held
    {
      Start(|order|, Tokens())
    }

    function At(tok: nat, p: nat): nat { Start(|order|, tok) + p }

    function BatchOf(i: nat): LayerBatch
      requires order != [] && held <= w
    {
      LayerBatch(order[PosOf(|order|, i)], Ids(TokOf(|order|, i)))
    }

    function Batches(): (batches: seq<LayerBatch>)
      requires order != [] && k <= held <= w
      ensures |batches| == Len() && forall i :: 0 <= i < |batches| ==> batches[i] == BatchOf(i)
    {
      seq(Len(), i requires 0 <= i => BatchOf(i))
    }

    function KeysAt(i: nat): set<Key>
      requires order != [] && held <= w
    {
      var tok := TokOf(|order|, i); Range(order[PosOf(|order|, i)], First(tok), Width(tok))
    }

    function Touched(): (touched: seq<set<Key>>)
      requires order != [] && k <= held <= w
      ensures |touched| == Len() && forall i :: 0 <= i < |touched| ==> touched[i] == KeysAt(i)
    {
      seq(Len(), i requires 0 <= i => KeysAt(i))
    }
  }

  lemma TouchedIs(v: Wide)
    requires v.Ok()
    ensures TouchedSets(AllKeys(v.Batches())) == v.Touched()
  {
    forall i | 0 <= i < v.Len()
      ensures TouchedSets(AllKeys(v.Batches()))[i] == v.Touched()[i]
    {
      BatchTouchesRange(v, v.order[PosOf(|v.order|, i)], TokOf(|v.order|, i));
    }
  }

  lemma BatchTouchesRange(v: Wide, layer: int, tok: nat)
    requires v.held <= v.w
    ensures SetOf(KeysOf(LayerBatch(layer, v.Ids(tok)))) == Range(layer, v.First(tok), v.Width(tok))
  {
    var keys := KeysOf(LayerBatch(layer, v.Ids(tok)));
    forall x | x in Range(layer, v.First(tok), v.Width(tok))
      ensures x in keys
    {
      assert keys[x.expert - v.First(tok)] == x;
    }
  }

  /** Where batch i stands. */
  lemma Stands(v: Wide, i: nat)
    requires v.Ok() && i < v.Len()
    ensures var m, tok, p := |v.order|, TokOf(|v.order|, i), PosOf(|v.order|, i);
            && tok < v.Tokens() && i == v.At(tok, p)
            && (tok == 0 ==> i == p) && (tok == 1 ==> i == m + p) && (tok >= 2 ==> i >= 2 * m + p)
  {
    var m := |v.order|;
    var tok := TokOf(m, i);
    BatchIs(m, i);
    assert Start(m, 1) == m && Start(m, 2) == 2 * m;
    if tok >= 2 { StartGrows(m, 2, tok); }
    if tok >= v.Tokens() { StartGrows(m, v.Tokens(), tok); }
  }

  lemma LoadedAt(v: Wide, tok: nat, p: nat)
    requires v.Ok() && tok < v.Tokens() && p < |v.order|
    ensures v.At(tok, p) < v.Len()
    ensures v.Touched()[v.At(tok, p)] == Range(v.order[p], v.First(tok), v.Width(tok))
  {
    BatchAt(|v.order|, tok, p);
    assert Start(|v.order|, tok + 1) == Start(|v.order|, tok) + |v.order|;
    StartGrows(|v.order|, tok + 1, v.Tokens());
  }

  lemma WideIsShaped(v: Wide)
    requires v.Ok()
    ensures IsEngineTrace(v.order, v.k, v.Batches())
    ensures forall i :: 0 <= i < v.Len() ==> |SetOf(KeysOf(v.Batches()[i]))| <= v.w
  {
    var batches := v.Batches();
    assert |batches| == Start(|v.order|, v.Tokens());
    forall i | 0 <= i < |batches|
      ensures |v.order| <= i ==> |batches[i].ids| == v.k && Distinct(batches[i].ids)
      ensures |SetOf(KeysOf(batches[i]))| <= v.w
    {
      Stands(v, i);
      var tok := TokOf(|v.order|, i);
      BatchTouchesRange(v, batches[i].layer, tok);
      RangeSize(batches[i].layer, v.First(tok), v.Width(tok));
    }
  }

  // ---- what the partitioned cache does ----

  /** The place of a layer in the order. */
  function PlaceOf(order: seq<int>, layer: int): nat {
    if order == [] || order[0] == layer then 0 else 1 + PlaceOf(order[1..], layer)
  }

  lemma {:induction false} PlaceIs(order: seq<int>, p: nat)
    requires Distinct(order) && p < |order|
    ensures PlaceOf(order, order[p]) == p
  {
    if p > 0 { PlaceIs(order[1..], p - 1); }
  }

  /** Everything that the first pass loads. */
  ghost function Loaded(v: Wide): (s: set<Key>)
    ensures forall x :: x in s <==> x.layer in v.order && 0 <= x.expert < v.w
  {
    var s := set l, e | l in v.order && 0 <= e < v.w :: Key(l, e);
    assert forall x: Key :: x == Key(x.layer, x.expert);
    s
  }

  /** The layers served in the first pass hold its experts, until the second pass drops the oldest of them. */
  ghost function Held(v: Wide, n: nat): set<Key> {
    set x | x in Loaded(v) && var p := PlaceOf(v.order, x.layer);
                              p < n && (n <= |v.order| + p || v.w - v.held <= x.expert)
  }

  lemma InHeld(v: Wide, n: nat, x: Key, p: nat)
    requires v.Ok() && p < |v.order| && x.layer == v.order[p]
    ensures x in Held(v, n) <==> p < n && 0 <= x.expert < v.w && (n <= |v.order| + p || v.w - v.held <= x.expert)
  {
    PlaceIs(v.order, p);
  }

  lemma HeldOf(v: Wide, n: nat, p: nat)
    requires v.Ok() && p < |v.order|
    ensures InLayer(Held(v, n), v.order[p])
            == if n <= p then {} else if n <= |v.order| + p then Range(v.order[p], 0, v.w)
               else Range(v.order[p], v.w - v.held, v.held)
  {
    forall x: Key | x.layer == v.order[p]
      ensures x in Held(v, n) <==> p < n && 0 <= x.expert < v.w && (n <= |v.order| + p || v.w - v.held <= x.expert)
    {
      InHeld(v, n, x, p);
    }
  }

  ghost function Layered(v: Wide): (sched: seq<set<Key>>)
    requires v.Ok()
    ensures |sched| == v.Len() + 1 && forall n :: 0 <= n <= v.Len() ==> sched[n] == Held(v, n)
  {
    seq(v.Len() + 1, n requires 0 <= n => Held(v, n))
  }

  /** A batch changes only what its layer holds. */
  lemma HeldElsewhere(v: Wide, i: nat, x: Key)
    requires v.Ok() && i < v.Len() && x.layer != v.order[PosOf(|v.order|, i)]
    ensures x in Held(v, i + 1) <==> x in Held(v, i)
  {
    Stands(v, i);
    if p :| 0 <= p < |v.order| && v.order[p] == x.layer {
      InHeld(v, i, x, p);
      InHeld(v, i + 1, x, p);
    }
  }

  lemma HeldHere(v: Wide, i: nat, l: int, t: set<Key>)
    requires v.Ok() && i < v.Len() && l == v.order[PosOf(|v.order|, i)] && t == v.KeysAt(i)
    ensures var tok := TokOf(|v.order|, i);
            && InLayer(Held(v, i), l) == (if tok == 0 then {} else if tok == 1 then Range(l, 0, v.w)
                                          else Range(l, v.w - v.held, v.held))
            && InLayer(Held(v, i + 1), l) == (if tok == 0 then t else Range(l, v.w - v.held, v.held))
            && (tok > 0 ==> t <= Range(l, v.w - v.held, v.held))
            && (tok > 0 && v.held == v.k ==> t == Range(l, v.w - v.held, v.held))
  {
    Stands(v, i);
    HeldOf(v, i, PosOf(|v.order|, i));
    HeldOf(v, i + 1, PosOf(|v.order|, i));
  }

  /** Only in the second pass is anything dropped: the oldest of what the first pass loaded. */
  lemma HeldSteps(v: Wide, i: nat, l: int, t: set<Key>)
    requires v.Ok() && i < v.Len() && l == v.order[PosOf(|v.order|, i)] && t == v.KeysAt(i)
    ensures t <= Held(v, i + 1) <= Held(v, i) + t
    ensures TokOf(|v.order|, i) != 1 ==> Held(v, i + 1) == Held(v, i) + t
    ensures TokOf(|v.order|, i) == 1 ==> Held(v, i) + t - Held(v, i + 1) == Range(l, 0, v.w - v.held)
  {
    HeldHere(v, i, l, t);
    forall x: Key
      ensures x.layer != l ==> x !in t && (x in Held(v, i + 1) <==> x in Held(v, i))
      ensures x.layer == l ==> (x in Held(v, i) <==> x in InLayer(Held(v, i), l))
      ensures x.layer == l ==> (x in Held(v, i + 1) <==> x in InLayer(Held(v, i + 1), l))
    {
      if x.layer != l {
        HeldElsewhere(v, i, x);
      }
    }
  }

  /** The slice of a layer has room for `held` entries, or for fewer than a token loads. */
  ghost predicate Sliced(v: Wide, c: Costs, unit: int, part: int) {
    && v.Ok() && unit > 0 && v.held == Max(part / unit, v.k)
    && forall l :: l in v.order ==> l in c.bytes && c.bytes[l] == unit
  }

  /** Within a layer, bytes are numbers of entries. */
  lemma LayerCount(c: Costs, unit: int, part: int, l: int, s: set<Key>)
    requires unit > 0 && l in c.bytes && c.bytes[l] == unit
    ensures Sum(InLayer(s, l), c) <= part <==> |InLayer(s, l)| <= part / unit
  {
    SumUniform(InLayer(s, l), c, unit);
    FloorBound(unit, part, |InLayer(s, l)|);
  }

  /** A batch of a partitioned policy drops nothing while its layer is within the slice, or holds only the batch. */
  lemma DropsNone(c: Costs, unit: int, part: int, budget: int, nLayer: int, l: int, touched: seq<set<Key>>,
                  last: map<Key, int>, r: set<Key>, i: nat, r': set<Key>)
    requires unit > 0 && l in c.bytes && c.bytes[l] == unit && part == Slice(budget, nLayer)
    requires i < |touched| && ReplayStep(Layer, c, budget, nLayer, l, touched, last, r, i, r')
    requires var here := InLayer(r + touched[i], l); |here| <= part / unit || here == touched[i]
    ensures r' == r + touched[i]
  {
    var s := r + touched[i];
    if r' != s {
      var x :| LastDrop(Layer, c, part, l, touched, last, i, s, r', x);
      assert Candidate(Layer, l, x);
      assert x in InLayer(s, l);
      LayerCount(c, unit, part, l, r' + {x});
      SubsetSize(InLayer(r' + {x}, l), InLayer(s, l));
    }
  }

  /** The keys of the first pass, those in t apart, are as old as they were listed. */
  ghost predicate InOrderOf(last: map<Key, int>, l: int, w: nat, t: set<Key>) {
    forall a: nat, b: nat :: a < b < w && Key(l, a) !in t && Key(l, b) !in t ==>
      StampOf(last, Key(l, a)) < StampOf(last, Key(l, b))
  }

  lemma NotOlder(last: map<Key, int>, l: int, w: nat, touched: seq<set<Key>>, i: nat, x: Key, y: Key)
    requires i < |touched| && InOrderOf(last, l, w, touched[i]) && x !in touched[i] && y !in touched[i]
    requires x.layer == y.layer == l && 0 <= y.expert < x.expert < w
    ensures !GoesFirst(Layer, touched, last, i, x, y)
  {
    assert x == Key(l, x.expert) && y == Key(l, y.expert);
  }

  /** A full layer keeps its newest keys: a slice of them, or the batch. */
  lemma NewestStay(c: Costs, unit: int, part: int, budget: int, nLayer: int, l: int, touched: seq<set<Key>>,
                   last: map<Key, int>, r: set<Key>, i: nat, r': set<Key>, w: nat, cut: nat, held: nat)
    requires unit > 0 && l in c.bytes && c.bytes[l] == unit && part == Slice(budget, nLayer)
    requires i < |touched| && ReplayStep(Layer, c, budget, nLayer, l, touched, last, r, i, r')
    requires cut + held == w && InLayer(r + touched[i], l) == Range(l, 0, w) && touched[i] <= Range(l, cut, held)
    requires InOrderOf(last, l, w, touched[i]) && (held <= part / unit || touched[i] == Range(l, cut, held))
    ensures Range(l, cut, held) <= r'
  {
    var s, t := r + touched[i], touched[i];
    if x :| x in Range(l, cut, held) && x !in r' {
      assert x in InLayer(s, l);
      var last' :| LastDrop(Layer, c, part, l, touched, last, i, s, r', last');
      forall y | y in InLayer(r' + {last'}, l)
        ensures y in Range(l, cut, held)
      {
        NewestStayOver(touched, last, l, w, cut, held, s, r', i, x, last', y);
      }
      LayerCount(c, unit, part, l, r' + {last'});
      RangeSize(l, cut, held);
      SubsetSize(InLayer(r' + {last'}, l), Range(l, cut, held));
    }
  }

  lemma NewestStayOver(touched: seq<set<Key>>, last: map<Key, int>, l: int, w: nat, cut: nat, held: nat, s: set<Key>,
                       r': set<Key>, i: nat, x: Key, d: Key, y: Key)
    requires i < |touched| && cut + held == w && touched[i] <= Range(l, cut, held) && touched[i] <= r'
    requires InLayer(s, l) == Range(l, 0, w) && InOrderOf(last, l, w, touched[i]) && r' <= s && d in s - r'
    requires x in Range(l, cut, held) && x !in r' && GoesFirst(Layer, touched, last, i, x, d)
    requires forall kept :: kept in r' - touched[i] && Candidate(Layer, l, kept) ==>
               GoesFirst(Layer, touched, last, i, x, kept)
    requires y in InLayer(r' + {d}, l)
    ensures y in Range(l, cut, held)
  {
    assert y in InLayer(s, l);
    assert Candidate(Layer, l, y);
    if y !in touched[i] && y.expert < cut {
      NotOlder(last, l, w, touched, i, x, y);
    }
  }

  /** And it drops the others. */
  lemma OldestGo(c: Costs, unit: int, part: int, budget: int, nLayer: int, l: int, touched: seq<set<Key>>,
                 last: map<Key, int>, r: set<Key>, i: nat, r': set<Key>, w: nat, cut: nat, held: nat)
    requires unit > 0 && l in c.bytes && c.bytes[l] == unit && part == Slice(budget, nLayer)
    requires i < |touched| && ReplayStep(Layer, c, budget, nLayer, l, touched, last, r, i, r')
    requires cut + held == w && InLayer(r + touched[i], l) == Range(l, 0, w) && touched[i] <= Range(l, cut, held)
    requires held >= part / unit && Range(l, cut, held) <= r'
    ensures InLayer(r', l) == Range(l, cut, held)
  {
    if x :| x in InLayer(r', l) && x !in Range(l, cut, held) {
      RangeSize(l, cut, held);
      assert Range(l, cut, held) + {x} <= InLayer(r', l);
      SubsetSize(Range(l, cut, held) + {x}, InLayer(r', l));
      LayerCount(c, unit, part, l, r');
      assert Candidate(Layer, l, x);
    }
  }

  /** The partitioned cache goes through these states, whatever it is asked to break ties on. */
  lemma HeldFollows(v: Wide, c: Costs, unit: int, part: int, budget: int, nLayer: int, last: map<Key, int>, i: nat,
                    l: int, touched: seq<set<Key>>, r: set<Key>, r': set<Key>)
    requires Sliced(v, c, unit, part) && part == Slice(budget, nLayer) && i < v.Len() && i < |touched|
    requires l == v.order[PosOf(|v.order|, i)] && touched[i] == v.KeysAt(i) && r == Held(v, i)
    requires TokOf(|v.order|, i) == 1 ==> InOrderOf(last, l, v.w, touched[i])
    requires ReplayStep(Layer, c, budget, nLayer, l, touched, last, r, i, r')
    ensures r' == Held(v, i + 1)
  {
    HeldSteps(v, i, l, touched[i]);
    LayerBefore(v, i, l, touched[i]);
    if TokOf(|v.order|, i) == 1 && v.w > v.held {
      NewestStay(c, unit, part, budget, nLayer, l, touched, last, r, i, r', v.w, v.w - v.held, v.held);
      OldestGo(c, unit, part, budget, nLayer, l, touched, last, r, i, r', v.w, v.w - v.held, v.held);
      OnlyHere(c, budget, nLayer, l, touched, last, r, i, r', Held(v, i + 1));
    } else {
      RangeSize(l, v.w - v.held, v.held);
      DropsNone(c, unit, part, budget, nLayer, l, touched, last, r, i, r');
    }
  }

  /** What the layer of a batch holds with the batch. */
  lemma LayerBefore(v: Wide, i: nat, l: int, t: set<Key>)
    requires v.Ok() && i < v.Len() && l == v.order[PosOf(|v.order|, i)] && t == v.KeysAt(i)
    ensures var tok, here := TokOf(|v.order|, i), InLayer(Held(v, i) + t, l);
            && (tok == 0 ==> here == t) && (tok == 1 ==> here == Range(l, 0, v.w))
            && (tok > 0 ==> t <= Range(l, v.w - v.held, v.held))
            && (tok > 0 && v.held == v.k ==> t == Range(l, v.w - v.held, v.held))
            && (tok > 1 || (tok == 1 && v.w == v.held) ==> here == Range(l, v.w - v.held, v.held))
            && InLayer(Held(v, i + 1), l) == if tok == 0 then t else Range(l, v.w - v.held, v.held)
  {
    HeldHere(v, i, l, t);
    assert InLayer(Held(v, i) + t, l) == InLayer(Held(v, i), l) + t;
  }

  lemma OnlyHere(c: Costs, budget: int, nLayer: int, l: int, touched: seq<set<Key>>, last: map<Key, int>, r: set<Key>,
                 i: nat, r': set<Key>, should: set<Key>)
    requires i < |touched| && ReplayStep(Layer, c, budget, nLayer, l, touched, last, r, i, r')
    requires InLayer(r', l) == InLayer(should, l) && touched[i] <= should <= r + touched[i]
    requires forall x :: x in r + touched[i] && x.layer != l ==> x in should
    ensures r' == should
  {
    forall x | x in r + touched[i]
      ensures x in r' <==> x in should
    {
      if x.layer == l {
        assert x in r' <==> x in InLayer(r', l);
        assert x in should <==> x in InLayer(should, l);
      } else {
        assert !Candidate(Layer, l, x);
      }
    }
  }

  // ---- how old the keys are ----

  /** Two keys of one batch that were not touched since are as old as they were listed. */
  lemma OlderFirst(keys: seq<seq<Key>>, touched: seq<set<Key>>, i: nat, n: nat, a: nat, b: nat)
    requires i < n <= |keys| && Distinct(keys[i]) && a < b < |keys[i]| && touched == TouchedSets(keys)
    requires forall j :: i < j < n ==> keys[i][a] !in touched[j]
    requires forall j :: i < j < n ==> keys[i][b] !in touched[j]
    ensures StampOf(StampsAt(keys, n).0, keys[i][a]) < StampOf(StampsAt(keys, n).0, keys[i][b])
  {
    var (last, clock) := StampsAt(keys, i);
    CacheOrder.StampedLast(last, clock, keys[i], a);
    CacheOrder.StampedLast(last, clock, keys[i], b);
    CacheOrder.StampKept(keys, keys[i][a], i + 1, n);
    CacheOrder.StampKept(keys, keys[i][b], i + 1, n);
  }

  function Listed(l: int, w: nat): (keys: seq<Key>)
    ensures |keys| == w && forall e :: 0 <= e < w ==> keys[e] == Key(l, e)
  {
    seq(w, e => Key(l, e))
  }

  /** Batch j touches nothing of the layer but t. */
  ghost predicate Quiet(touched: seq<set<Key>>, j: nat, l: int, t: set<Key>)
    requires j < |touched|
  {
    InLayer(touched[j], l) <= t
  }

  /** Batch i listed a layer's experts in order, and nothing but t was touched since. */
  ghost predicate ListedLast(keys: seq<seq<Key>>, touched: seq<set<Key>>, i: int, n: nat, l: int, w: nat, t: set<Key>) {
    && 0 <= i < n <= |keys| && touched == TouchedSets(keys) && keys[i] == Listed(l, w)
    && forall j {:trigger Quiet(touched, j, l, t)} :: i < j < n ==> Quiet(touched, j, l, t)
  }

  /** Then what was not touched since is still in order. */
  lemma ListedInOrder(keys: seq<seq<Key>>, touched: seq<set<Key>>, last: map<Key, int>, n: nat, l: int, w: nat,
                      t: set<Key>)
    requires n <= |keys| && last == StampsAt(keys, n).0 && exists i: int :: ListedLast(keys, touched, i, n, l, w, t)
    ensures InOrderOf(last, l, w, t)
  {
    var i :| ListedLast(keys, touched, i, n, l, w, t);
    forall a: nat, b: nat | a < b < w && Key(l, a) !in t && Key(l, b) !in t
      ensures StampOf(last, Key(l, a)) < StampOf(last, Key(l, b))
    {
      NotTouched(touched, i, n, l, t, keys[i][a]);
      NotTouched(touched, i, n, l, t, keys[i][b]);
      OlderFirst(keys, touched, i, n, a, b);
    }
  }

  lemma NotTouched(touched: seq<set<Key>>, i: nat, n: nat, l: int, t: set<Key>, x: Key)
    requires i < n <= |touched| && x.layer == l && x !in t
    requires forall j {:trigger Quiet(touched, j, l, t)} :: i < j < n ==> Quiet(touched, j, l, t)
    ensures forall j :: i < j < n ==> x !in touched[j]
  {
    forall j | i < j < n
      ensures x !in touched[j]
    {
      assert Quiet(touched, j, l, t);
      assert x in touched[j] ==> x in InLayer(touched[j], l);
    }
  }

  lemma FirstPassKeys(v: Wide, keys: seq<seq<Key>>, p: nat)
    requires v.Ok() && p < |v.order| && p < v.Len() && keys == AllKeys(v.Batches())
    ensures keys[p] == Listed(v.order[p], v.w)
  {
    BatchAt(|v.order|, 0, p);
    assert v.Batches()[p] == v.BatchOf(p);
  }

  /** From a layer's turn in the first pass to its turn in the second, nothing else touches it. */
  lemma Between(v: Wide, touched: seq<set<Key>>, p: nat, i: nat, l: int, t: set<Key>)
    requires v.Ok() && p < |v.order| && i == |v.order| + p < v.Len() && touched == v.Touched()
    requires l == v.order[p] && t == v.KeysAt(i)
    ensures forall j {:trigger Quiet(touched, j, l, t)} :: p < j < i + 1 ==> Quiet(touched, j, l, t)
  {
    forall j | p < j < i + 1
      ensures Quiet(touched, j, l, t)
    {
      Stands(v, j);
      if j < i {
        assert v.order[PosOf(|v.order|, j)] != v.order[p];
      }
    }
  }

  /** Every replay of the partitioned lru is the layered run. */
  lemma {:induction false} LayeredIs(v: Wide, c: Costs, unit: int, budget: int, nLayer: int, sched: seq<set<Key>>,
                                     n: nat)
    requires Sliced(v, c, unit, Slice(budget, nLayer)) && n <= v.Len()
    requires Replays(Layer, c, budget, nLayer, v.Batches(), sched)
    ensures sched[n] == Held(v, n)
  {
    if n == 0 {
      assert Held(v, 0) == {};
    } else {
      LayeredIs(v, c, unit, budget, nLayer, sched, n - 1);
      StepOf(Layer, c, budget, nLayer, v.Batches(), sched, n - 1);
      var keys := AllKeys(v.Batches());
      LayeredNext(v, c, unit, budget, nLayer, v.Batches(), keys, TouchedSets(keys), StampsAt(keys, n).0,
                  v.Batches()[n - 1].layer, sched[n - 1], n - 1, n, sched[n]);
    }
  }

  lemma LayeredNext(v: Wide, c: Costs, unit: int, budget: int, nLayer: int, batches: seq<LayerBatch>,
                    keys: seq<seq<Key>>, touched: seq<set<Key>>, last: map<Key, int>, l: int, r: set<Key>, i: nat,
                    n: nat, r': set<Key>)
    requires Sliced(v, c, unit, Slice(budget, nLayer)) && batches == v.Batches() && i < |batches| && r == Held(v, i)
    requires n == i + 1 && keys == AllKeys(batches) && touched == TouchedSets(keys) && last == StampsAt(keys, n).0
    requires l == batches[i].layer && ReplayStep(Layer, c, budget, nLayer, l, touched, last, r, i, r')
    ensures r' == Held(v, n)
  {
    TouchedIs(v);
    LayeredStep(v, c, unit, budget, nLayer, keys, last, i, n, l, touched, r, r');
  }

  lemma LayeredStep(v: Wide, c: Costs, unit: int, budget: int, nLayer: int, keys: seq<seq<Key>>, last: map<Key, int>,
                    i: nat, n: nat, l: int, touched: seq<set<Key>>, r: set<Key>, r': set<Key>)
    requires Sliced(v, c, unit, Slice(budget, nLayer)) && i < v.Len() && touched == v.Touched() && n == i + 1
    requires keys == AllKeys(v.Batches()) && last == StampsAt(keys, n).0 && l == v.order[PosOf(|v.order|, i)]
    requires r == Held(v, i) && ReplayStep(Layer, c, budget, nLayer, l, touched, last, r, i, r')
    ensures r' == Held(v, n)
  {
    if TokOf(|v.order|, i) == 1 {
      SecondPassFollows(v, keys, i, n, l, touched, touched[i]);
      ListedInOrder(keys, touched, last, n, l, v.w, touched[i]);
    }
    HeldFollows(v, c, unit, Slice(budget, nLayer), budget, nLayer, last, i, l, touched, r, r');
  }

  lemma SecondPassFollows(v: Wide, keys: seq<seq<Key>>, i: nat, n: nat, l: int, touched: seq<set<Key>>, t: set<Key>)
    requires v.Ok() && i < v.Len() && touched == v.Touched() && TokOf(|v.order|, i) == 1
    requires keys == AllKeys(v.Batches()) && l == v.order[PosOf(|v.order|, i)] && n == i + 1 && t == touched[i]
    ensures exists p: int :: ListedLast(keys, touched, p, n, l, v.w, t)
  {
    var p := PosOf(|v.order|, i);
    Stands(v, i);
    TouchedIs(v);
    FirstPassKeys(v, keys, p);
    Between(v, touched, p, i, l, t);
    assert ListedLast(keys, touched, p, n, l, v.w, t);
  }

  // ---- what a global cache misses ----

  /** After the prefill the partitioned cache always hits. */
  lemma LayeredHits(v: Wide, i: nat)
    requires v.Ok() && |v.order| <= i < v.Len()
    ensures v.KeysAt(i) <= Held(v, i)
  {
    Stands(v, i);
    HeldHere(v, i, v.order[PosOf(|v.order|, i)], v.KeysAt(i));
  }

  /** The windows, which the later tokens go through. */
  ghost function Windows(v: Wide): (s: set<Key>)
    requires v.Ok()
    ensures forall x :: x in s <==> x.layer in v.order && v.w - v.held <= x.expert < v.w
  {
    var s := set l, e | l in v.order && v.w - v.held <= e < v.w :: Key(l, e);
    assert forall x: Key :: x == Key(x.layer, x.expert);
    s
  }

  lemma InWindow(v: Wide, x: Key) returns (i: nat)
    requires v.Ok() && x in Windows(v)
    ensures |v.order| <= i < |v.Touched()| && x in v.Touched()[i]
  {
    var p :| 0 <= p < |v.order| && v.order[p] == x.layer;
    var d := x.expert - (v.w - v.held);
    var tok := 1 + if d < v.held - v.k then d else v.held - v.k;
    LoadedAt(v, tok, p);
    assert Start(|v.order|, 1) == |v.order|;
    StartGrows(|v.order|, 1, tok);
    i := v.At(tok, p);
  }

  /** A schedule that hits whenever the partitioned one does has all windows at the end of the prefill. */
  lemma {:induction false} WasThere(touched: seq<set<Key>>, sched: seq<set<Key>>, x: Key, from: nat, i: nat)
    requires Starts(touched, sched) && from <= i < |touched|
    requires forall j :: 0 <= j < |touched| ==> sched[j + 1] <= sched[j] + touched[j]
    requires forall j :: from <= j < |touched| ==> touched[j] <= sched[j]
    requires x in touched[i]
    ensures x in sched[from]
    decreases i
  {
    CameFrom(touched, sched, x, from, i);
    if x !in sched[from] {
      var j :| from <= j < i && x in touched[j];
      WasThere(touched, sched, x, from, j);
    }
  }

  lemma {:induction false} CameFrom(touched: seq<set<Key>>, sched: seq<set<Key>>, x: Key, from: nat, i: nat)
    requires Starts(touched, sched) && from <= i < |touched| && x in sched[i]
    requires forall j :: 0 <= j < |touched| ==> sched[j + 1] <= sched[j] + touched[j]
    ensures x in sched[from] || exists j :: from <= j < i && x in touched[j]
    decreases i
  {
    if from < i && x !in touched[i - 1] {
      CameFrom(touched, sched, x, from, i - 1);
    }
  }

  lemma {:induction false} WindowsSize(v: Wide, order: seq<int>, s: set<Key>)
    requires Distinct(order) && v.held <= v.w
    requires forall x :: x in s <==> x.layer in order && v.w - v.held <= x.expert < v.w
    ensures |s| == Times(v.held, |order|)
    decreases |order|
  {
    if order == [] {
      assert s == {};
    } else {
      var n := |order| - 1;
      var here := Range(order[n], v.w - v.held, v.held);
      assert order == order[..n] + [order[n]];
      WindowsSize(v, order[..n], s - here);
      RangeSize(order[n], v.w - v.held, v.held);
      SplitSize(s, here);
      assert s * here == here;
    }
  }

  /** After the prefill a schedule holds the last layer's w experts; with the windows of the others it would be
      too large. */
  lemma TooMuch(v: Wide, r: set<Key>)
    requires v.Ok() && Windows(v) <= r && Range(v.order[|v.order| - 1], 0, v.w) <= r
    ensures |r| >= v.w + Times(v.held, |v.order| - 1)
  {
    var n := |v.order| - 1;
    var last, others := Range(v.order[n], 0, v.w), Windows(v) - Range(v.order[n], v.w - v.held, v.held);
    assert v.order == v.order[..n] + [v.order[n]];
    WindowsSize(v, v.order[..n], others);
    RangeSize(v.order[n], 0, v.w);
    SubsetSize(last + others, r);
    assert |last + others| == |last| + |others|;
  }

  /** So a schedule that keeps to a room too small for that misses something. */
  lemma RoomyMisses(v: Wide, touched: seq<set<Key>>, sched: seq<set<Key>>, room: int) returns (i: nat)
    requires v.Ok() && |v.order| > 1 && touched == v.Touched() && RoomyRun(touched, sched, room)
    requires room < v.w + Times(v.held, |v.order| - 1)
    ensures |v.order| <= i < |touched| && !(touched[i] <= sched[i])
  {
    var m := |v.order|;
    forall j | 0 <= j < |touched|
      ensures sched[j + 1] <= sched[j] + touched[j]
    {
      assert WithinRoom(sched[j], touched[j], room, sched[j + 1]);
    }
    LoadedAt(v, 0, m - 1);
    assert v.At(0, m - 1) == m - 1;
    if j :| m <= j < |touched| && !(touched[j] <= sched[j]) {
      i := j;
    } else {
      forall x | x in Windows(v)
        ensures x in sched[m]
      {
        var j := InWindow(v, x);
        WasThere(touched, sched, x, m, j);
      }
      assert WithinRoom(sched[m - 1], touched[m - 1], room, sched[m]);
      TooMuch(v, sched[m]);
      RangeSize(v.order[m - 1], 0, v.w);
      assert false;
    }
  }

  lemma {:induction false} FewerHits(touched: seq<set<Key>>, a: seq<set<Key>>, b: seq<set<Key>>, n: nat, i: nat)
    requires n <= |touched| && n <= |a| && n <= |b|
    requires forall j :: 0 <= j < n ==> |a[j] * touched[j]| <= |b[j] * touched[j]|
    requires i < |touched| && (i < n ==> |a[i] * touched[i]| < |b[i] * touched[i]|)
    ensures Hits(touched, a, n) + (if i < n then 1 else 0) <= Hits(touched, b, n)
  {
    if n > 0 {
      FewerHits(touched, a, b, n - 1, i);
    }
  }

  /** Belady, and any other policy of a global cache, misses what the partitioned cache hits. */
  lemma WidePasses(v: Wide, c: Costs, unit: int, budget: int, nLayer: int, policy: Policy, global: seq<set<Key>>,
                   layered: seq<set<Key>>)
    requires Sliced(v, c, unit, Slice(budget, nLayer)) && |v.order| > 1 && !policy.Partitioned()
    requires budget / unit < v.w + Times(v.held, |v.order| - 1)
    requires Replays(policy, c, budget, nLayer, v.Batches(), global)
    requires Replays(Layer, c, budget, nLayer, v.Batches(), layered)
    ensures var touched := TouchedSets(AllKeys(v.Batches()));
            Hits(touched, global, |touched|) < Hits(touched, layered, |touched|)
  {
    forall n | 0 <= n <= v.Len()
      ensures layered[n] == Layered(v)[n]
    {
      LayeredIs(v, c, unit, budget, nLayer, layered, n);
    }
    TouchedIs(v);
    WideIsUniform(v, c, unit, Slice(budget, nLayer));
    ReplayIsRoomy(policy, c, budget, nLayer, v.Batches(), global, unit);
    assert layered == Layered(v);
    RoomyIsPassed(v, v.Touched(), global, budget / unit);
  }

  lemma WideIsUniform(v: Wide, c: Costs, unit: int, part: int)
    requires Sliced(v, c, unit, part)
    ensures UniformCost(c, v.Batches(), unit)
  {
  }

  lemma RoomyIsPassed(v: Wide, touched: seq<set<Key>>, global: seq<set<Key>>, room: int)
    requires v.Ok() && |v.order| > 1 && touched == v.Touched() && RoomyRun(touched, global, room)
    requires room < v.w + Times(v.held, |v.order| - 1)
    ensures Hits(touched, global, |touched|) < Hits(touched, Layered(v), |touched|)
  {
    var i := RoomyMisses(v, touched, global, room);
    forall j | 0 <= j < |touched|
      ensures |global[j] * touched[j]| <= |Layered(v)[j] * touched[j]|
      ensures j == i ==> |global[j] * touched[j]| < |Layered(v)[j] * touched[j]|
    {
      BatchHits(v, touched, global, room, j);
    }
    FewerHits(touched, global, Layered(v), |touched|, i);
  }

  lemma BatchHits(v: Wide, touched: seq<set<Key>>, global: seq<set<Key>>, room: int, j: nat)
    requires v.Ok() && touched == v.Touched() && RoomyRun(touched, global, room) && j < |touched|
    ensures |global[j] * touched[j]| <= |Held(v, j) * touched[j]|
    ensures |v.order| <= j && !(touched[j] <= global[j]) ==> |global[j] * touched[j]| < |Held(v, j) * touched[j]|
  {
    if j < |v.order| {
      FirstPassMisses(v, touched, global, room, j);
    } else {
      LayeredHits(v, j);
      assert Held(v, j) * touched[j] == touched[j];
      SubsetSize(global[j] * touched[j], touched[j]);
      if x :| x in touched[j] && x !in global[j] {
        SubsetSize(global[j] * touched[j], touched[j] - {x});
      }
    }
  }

  lemma FirstPassMisses(v: Wide, touched: seq<set<Key>>, global: seq<set<Key>>, room: int, j: nat)
    requires v.Ok() && touched == v.Touched() && RoomyRun(touched, global, room) && j < |v.order| && j < |touched|
    ensures global[j] * touched[j] == {}
  {
    forall i | 0 <= i < |touched|
      ensures global[i + 1] <= global[i] + touched[i]
    {
      assert WithinRoom(global[i], touched[i], room, global[i + 1]);
    }
    FromTouched(touched, global, j);
    forall i | 0 <= i < j
      ensures touched[i] !! touched[j]
    {
      assert v.order[i] != v.order[j];
    }
  }
}
