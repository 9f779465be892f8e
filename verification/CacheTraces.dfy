/** The traces that the engine writes: every token loads the same number of experts of every expert layer, in
    order. */
module CacheTraces {
  import opened CacheTheory
  import opened CacheReplay

  // ---- the shape of a trace ----

  /** The token that batch i belongs to, and its place in the pass over m layers. */
  function TokOf(m: nat, i: nat): nat
    requires m > 0
  {
    if i < m then 0 else 1 + TokOf(m, i - m)
  }

  function PosOf(m: nat, i: nat): (p: nat)
    requires m > 0
    ensures p < m
  {
    if i < m then i else PosOf(m, i - m)
  }

  /** The first batch of a token. */
  function Start(m: nat, tok: nat): nat {
    if tok == 0 then 0 else Start(m, tok - 1) + m
  }

  lemma {:induction false} BatchIs(m: nat, i: nat)
    requires m > 0
    ensures i == Start(m, TokOf(m, i)) + PosOf(m, i)
  {
    if i >= m {
      BatchIs(m, i - m);
    }
  }

  lemma {:induction false} BatchAt(m: nat, tok: nat, p: nat)
    requires p < m
    ensures TokOf(m, Start(m, tok) + p) == tok && PosOf(m, Start(m, tok) + p) == p
  {
    if tok > 0 {
      BatchAt(m, tok - 1, p);
    }
  }

  lemma {:induction false} StartGrows(m: nat, s: nat, t: nat)
    requires s <= t
    ensures Start(m, s) <= Start(m, t)
    decreases t
  {
    if s < t {
      StartGrows(m, s, t - 1);
    }
  }

  predicate Distinct<T(==)>(s: seq<T>) {
    forall e, f :: 0 <= e < f < |s| ==> s[e] != s[f]
  }

  /** A pass over the expert layers for each token. After the first pass, which may be the prefill of a whole
      prompt, every batch loads k distinct experts. */
  ghost predicate IsEngineTrace(order: seq<int>, k: nat, batches: seq<LayerBatch>)
    requires order != []
  {
    && (exists tokens: nat :: |batches| == Start(|order|, tokens))
    && forall i :: 0 <= i < |batches| ==>
         && batches[i].layer == order[PosOf(|order|, i)]
         && (|order| <= i ==> |batches[i].ids| == k && Distinct(batches[i].ids))
  }

  function Range(layer: int, first: nat, k: nat): (s: set<Key>)
    ensures forall x :: x in s <==> x.layer == layer && first <= x.expert < first + k
  {
    var s := set e | first <= e < first + k :: Key(layer, e);
    assert forall x: Key :: x == Key(x.layer, x.expert);
    s
  }

  lemma {:induction false} RangeSize(layer: int, first: nat, k: nat)
    ensures |Range(layer, first, k)| == k
  {
    if k == 0 {
      assert Range(layer, first, k) == {};
    } else {
      RangeSize(layer, first, k - 1);
      assert Range(layer, first, k) == Range(layer, first, k - 1) + {Key(layer, first + k - 1)};
    }
  }
}
