/** Prompt-lookup drafting: the backward scan for the longest, most recent earlier occurrence of the
    text's own ending, and the proof that the scan finds it. */
module NgramDraft {
  import opened Basics

  /** The number of tokens, up to `cap`, on which the text ending at j agrees with the text ending at e. */
  function SuffixMatch(text: seq<Token>, j: int, e: int, cap: int): (m: nat)
    requires j < e < |text|
    ensures 0 <= cap ==> m <= cap
    ensures 0 <= j ==> m <= j + 1
    decreases cap
  {
    if cap <= 0 || j < 0 || text[j] != text[e] then 0
    else 1 + SuffixMatch(text, j - 1, e - 1, cap - 1)
  }

  /** The measure means what it should: it is the largest length, within the caps, at which the two
      endings are the same text. */
  lemma {:induction false} SuffixMatchIsLongest(text: seq<Token>, j: nat, e: nat, cap: nat, len: nat)
    requires j < e < |text| && len <= cap && len <= j + 1
    ensures text[j + 1 - len..j + 1] == text[e + 1 - len..e + 1] <==> len <= SuffixMatch(text, j, e, cap)
    decreases cap
  {
    if len > 0 {
      SliceEnds(text, j + 1 - len, j, e + 1 - len, e);
      MatchSteps(text, j, e, cap);
      if j > 0 {
        SuffixMatchIsLongest(text, j - 1, e - 1, cap - 1, len - 1);
      }
    }
  }

  lemma MatchSteps(text: seq<Token>, j: nat, e: nat, cap: nat)
    requires j < e < |text| && cap > 0
    ensures SuffixMatch(text, j, e, cap)
            == if text[j] != text[e] then 0 else if j == 0 then 1 else 1 + SuffixMatch(text, j - 1, e - 1, cap - 1)
  {
    assert SuffixMatch(text, -1, e - 1, cap - 1) == 0;
  }

  lemma SliceEnds(text: seq<Token>, a: nat, j: nat, b: nat, e: nat)
    requires a <= j < |text| && b <= e < |text| && j - a == e - b
    ensures text[a..j + 1] == text[b..e + 1] <==> text[a..j] == text[b..e] && text[j] == text[e]
    ensures a == j ==> text[a..j] == text[b..e]
  {
    var x, y := text[a..j + 1], text[b..e + 1];
    assert x == text[a..j] + [text[j]] && y == text[b..e] + [text[e]];
    assert text[a..j] == x[..j - a] && text[b..e] == y[..j - a] && x[j - a] == text[j] && y[j - a] == text[e];
  }

  /** One more agreeing token, seen from the far end of the match, extends it by one. */
  lemma {:induction false} MatchExtends(text: seq<Token>, j: nat, e: nat, cap: nat, m: nat)
    requires j < e < |text| && m < cap && m <= j
    requires SuffixMatch(text, j, e, m) == m
    ensures SuffixMatch(text, j, e, m + 1) == if text[j - m] == text[e - m] then m + 1 else m
    ensures text[j - m] != text[e - m] ==> SuffixMatch(text, j, e, cap) == m
    decreases m
  {
    if m > 0 {
      MatchExtends(text, j - 1, e - 1, cap - 1, m - 1);
    }
  }

  /** How well the text ending at the earlier position j matches the end of the whole text. */
  function Score(text: seq<Token>, cap: nat, j: nat): (m: nat)
    requires j + 1 < |text|
    ensures m <= cap && m <= j + 1
  {
    SuffixMatch(text, j, |text| - 1, cap)
  }

  /** What a draft is taken from: no earlier position matches longer, none after it as long. */
  ghost predicate IsBest(text: seq<Token>, cap: nat, best: nat) {
    && best + 1 < |text|
    && forall j: nat :: j + 1 < |text| ==>
         && Score(text, cap, j) <= Score(text, cap, best)
         && (j > best ==> Score(text, cap, j) < Score(text, cap, best))
  }

  /** Some earlier position reaches the confidence floor. */
  ghost predicate HasMatch(text: seq<Token>, floor: int, cap: nat) {
    exists j: nat :: j + 1 < |text| && Score(text, cap, j) >= floor
  }

  lemma BestIsUnique(text: seq<Token>, cap: nat, a: nat, b: nat)
    requires IsBest(text, cap, a) && IsBest(text, cap, b)
    ensures a == b
  {
    assert Score(text, cap, a) <= Score(text, cap, b) <= Score(text, cap, a);
  }

  /** The specification of a draft: the tokens that followed the best match, at most nMax of them. `floor` is the
      confidence floor after clamping to 1. */
  ghost predicate IsDraft(text: seq<Token>, nMax: int, minMatch: int, maxMatch: int, out: seq<Token>) {
    var floor := if minMatch < 1 then 1 else minMatch;
    if nMax <= 0 || maxMatch < floor || !HasMatch(text, floor, maxMatch) then out == []
    else exists best: nat :: IsBest(text, maxMatch, best) && Continues(text, best, nMax, out)
  }

  ghost predicate Continues(text: seq<Token>, best: nat, nMax: nat, out: seq<Token>) {
    && best + 1 < |text| && |out| == Min(nMax, |text| - 1 - best)
    && forall i :: 0 <= i < |out| ==> out[i] == text[best + 1 + i]
  }

  /** The same in the text's own terms: the text up to position b ends as the whole text does, in len tokens. */
  ghost predicate EndsAlike(text: seq<Token>, b: nat, len: nat) {
    b + 1 < |text| && 0 < len <= b + 1 && text[b + 1 - len..b + 1] == text[|text| - len..]
  }

  /** A draft is what followed an earlier place that ends like the text, in at least the floor and at most maxMatch
      tokens; no other place ends like it in more, and no later one in as many. */
  ghost predicate DraftedFrom(text: seq<Token>, nMax: int, minMatch: int, maxMatch: int, out: seq<Token>, b: nat,
                              len: nat) {
    && EndsAlike(text, b, len) && Max(1, minMatch) <= len <= maxMatch
    && (forall c: nat, l: nat {:trigger EndsAlike(text, c, l)} ::
          EndsAlike(text, c, l) && l <= maxMatch ==> l <= len && (l == len ==> c <= b))
    && |out| == Min(nMax, |text| - 1 - b)
    && forall i :: 0 <= i < |out| ==> out[i] == text[b + 1 + i]
  }

  /** There is a draft exactly when there is room and such a place, and then it is what followed there. */
  lemma DraftFollows(text: seq<Token>, nMax: int, minMatch: int, maxMatch: int, out: seq<Token>)
    requires IsDraft(text, nMax, minMatch, maxMatch, out)
    ensures out != [] <==> nMax > 0 && exists b: nat, len: nat {:trigger EndsAlike(text, b, len)} ::
              EndsAlike(text, b, len) && Max(1, minMatch) <= len <= maxMatch
    ensures out != [] ==> exists b: nat, len: nat :: DraftedFrom(text, nMax, minMatch, maxMatch, out, b, len)
  {
    var floor := if minMatch < 1 then 1 else minMatch;
    forall b: nat, len: nat | EndsAlike(text, b, len) && len <= maxMatch
      ensures len <= Score(text, maxMatch, b)
    {
      AlikeScores(text, b, len, maxMatch);
    }
    forall b: nat, len: nat | EndsAlike(text, b, len) && floor <= len <= maxMatch
      ensures HasMatch(text, floor, maxMatch)
    {
      assert Score(text, maxMatch, b) >= floor;
    }
    if out != [] {
      var best: nat :| IsBest(text, maxMatch, best) && Continues(text, best, nMax, out);
      var len := Score(text, maxMatch, best);
      BestIsAlike(text, best, floor, maxMatch);
      assert DraftedFrom(text, nMax, minMatch, maxMatch, out, best, len);
    }
  }

  lemma AlikeScores(text: seq<Token>, b: nat, len: nat, cap: nat)
    requires EndsAlike(text, b, len) && len <= cap
    ensures len <= Score(text, cap, b)
  {
    SuffixMatchIsLongest(text, b, |text| - 1, cap, len);
  }

  lemma BestIsAlike(text: seq<Token>, best: nat, floor: nat, cap: nat)
    requires IsBest(text, cap, best) && 1 <= floor <= cap && HasMatch(text, floor, cap)
    ensures var len := Score(text, cap, best); len >= floor && EndsAlike(text, best, len)
  {
    var j: nat :| j + 1 < |text| && Score(text, cap, j) >= floor;
    var len := Score(text, cap, best);
    assert Score(text, cap, j) <= len;
    SuffixMatchIsLongest(text, best, |text| - 1, cap, len);
  }

  method Draft(ctx: seq<Token>, last: Token, nMax: int, minMatch0: int, maxMatch: int) returns (n: int, out: seq<Token>)
    ensures IsDraft(ctx + [last], nMax, minMatch0, maxMatch, out)
    ensures n == |out| && (nMax >= 0 ==> n <= nMax)
    // what followed the longest and most recent place that ends like the text
    ensures out != [] ==>
              exists b: nat, len: nat :: DraftedFrom(ctx + [last], nMax, minMatch0, maxMatch, out, b, len)
  {
    out := [];
    if nMax <= 0 { return 0, []; }
    var minMatch := if minMatch0 < 1 then 1 else minMatch0;
    if maxMatch < minMatch { return 0, []; }

    ghost var text := ctx + [last];
    var L := |ctx| + 1;
    if L < minMatch + 1 { return 0, []; }
    var end := L - 1;
    var bestM, bestJ := Scan(ctx, last, minMatch, maxMatch);
    if bestM < minMatch { return 0, []; }
    assert HasMatch(text, minMatch, maxMatch) by { assert Score(text, maxMatch, bestJ) >= minMatch; }

    var avail := end - bestJ;
    var count := if nMax <= avail then nMax else avail;
    var i := 0;
    while i < count
      invariant 0 <= i <= count
      invariant |out| == i && forall k :: 0 <= k < i ==> out[k] == text[bestJ + 1 + k]
    {
      out := out + [At(ctx, last, bestJ + 1 + i)];
      i := i + 1;
    }
    n := count;
    assert Continues(text, bestJ, nMax, out);
    DraftFollows(text, nMax, minMatch0, maxMatch, out);
  }

  /** The text is addressed without materialising it. */
  function At(ctx: seq<Token>, last: Token, i: nat): Token {
    if i < |ctx| then ctx[i] else last
  }

  /** The backward scan. It stops early at a match of the full capped length, and never looks below
      the first position that could still reach the floor. */
  method Scan(ctx: seq<Token>, last: Token, minMatch: nat, maxMatch: nat) returns (bestM: nat, bestJ: nat)
    requires 1 <= minMatch <= maxMatch && minMatch <= |ctx|
    ensures bestM < minMatch ==> !HasMatch(ctx + [last], minMatch, maxMatch)
    ensures bestM >= minMatch ==> IsBest(ctx + [last], maxMatch, bestJ) && bestM == Score(ctx + [last], maxMatch, bestJ)
  {
    ghost var text := ctx + [last];
    var end := |ctx|;
    var jMin := minMatch - 1;
    bestM, bestJ := 0, 0;
    var j := end - 1;
    while true
      invariant jMin <= j < end
      invariant bestM > 0 ==> j < bestJ < end && bestM == Score(text, maxMatch, bestJ)
      invariant bestM < maxMatch
      invariant forall k: nat :: j < k < end ==> Score(text, maxMatch, k) <= bestM
      invariant forall k: nat :: bestM > 0 && bestJ < k < end ==> Score(text, maxMatch, k) < bestM
      decreases j
    {
      var m := MatchAt(ctx, last, j, maxMatch);
      if m > bestM {
        bestM, bestJ := m, j;
        if bestM == maxMatch { break; }
      }
      if j <= jMin { break; }
      j := j - 1;
    }
    forall k: nat | k < j && bestM >= minMatch
      ensures Score(text, maxMatch, k) <= bestM
    {
      assert bestM == maxMatch || k + 1 < minMatch;
    }
  }

  /** The longest common suffix at one candidate, capped by maxMatch and by the text before it. */
  method MatchAt(ctx: seq<Token>, last: Token, j: nat, maxMatch: nat) returns (m: nat)
    requires j < |ctx| && maxMatch >= 1
    ensures m == Score(ctx + [last], maxMatch, j)
  {
    ghost var text := ctx + [last];
    var end := |ctx|;
    if At(ctx, last, j) != At(ctx, last, end) { return 0; }
    var lim := if maxMatch <= j + 1 then maxMatch else j + 1;
    m := 1;
    assert SuffixMatch(text, j, end, 1) == 1 + SuffixMatch(text, j - 1, end - 1, 0);
    while m < lim && At(ctx, last, j - m) == At(ctx, last, end - m)
      invariant 1 <= m <= lim
      invariant SuffixMatch(text, j, end, m) == m
    {
      MatchExtends(text, j, end, maxMatch, m);
      m := m + 1;
    }
    if m < maxMatch {
      if m <= j {
        MatchExtends(text, j, end, maxMatch, m);
      } else {
        WholePrefix(text, j, end, maxMatch);
      }
    }
  }

  /** A match that reaches the first token cannot be extended by a larger cap. */
  lemma {:induction false} WholePrefix(text: seq<Token>, j: nat, e: nat, cap: nat)
    requires j < e < |text| && j + 1 <= cap
    requires SuffixMatch(text, j, e, j + 1) == j + 1
    ensures SuffixMatch(text, j, e, cap) == j + 1
    decreases j
  {
    if j > 0 {
      WholePrefix(text, j - 1, e - 1, cap - 1);
    }
  }

  /** A run of one repeated token, longer than the shortest match, predicts itself. */
  lemma RepetitionDraftsItself(text: seq<Token>, t: Token, nMax: int, minMatch: int, maxMatch: int)
    requires 1 <= minMatch <= maxMatch && |text| > minMatch && nMax >= 1
    requires forall i :: 0 <= i < |text| ==> text[i] == t
    ensures IsDraft(text, nMax, minMatch, maxMatch, [t])
  {
    var best := |text| - 2;
    forall j: nat | j + 1 < |text|
      ensures Score(text, maxMatch, j) == Min(j + 1, maxMatch)
    {
      ConstantMatch(text, t, j, |text| - 1, maxMatch);
    }
    assert IsBest(text, maxMatch, best) && Score(text, maxMatch, best) >= minMatch;
    assert Continues(text, best, nMax, [t]);
  }

  lemma {:induction false} ConstantMatch(text: seq<Token>, t: Token, j: nat, e: nat, cap: nat)
    requires j < e < |text| && forall i :: 0 <= i < |text| ==> text[i] == t
    ensures SuffixMatch(text, j, e, cap) == Min(j + 1, cap)
    decreases j
  {
    if cap == 0 {
    } else if j > 0 {
      ConstantMatch(text, t, j - 1, e - 1, cap - 1);
    } else {
      assert SuffixMatch(text, -1, e - 1, cap - 1) == 0;
    }
  }

  /** The lengths at which there is anything to draft: a text needs one token more than the shortest match. */
  lemma DraftsNeedText(len: nat, nMax: int, minMatch: int, maxMatch: int)
    requires 1 <= minMatch <= maxMatch && nMax >= 1
    ensures (exists text: seq<Token>, out: seq<Token> :: |text| == len && IsDraft(text, nMax, minMatch, maxMatch, out)
                                                         && out != [])
            <==> len > minMatch
  {
    if len > minMatch {
      var text: seq<Token> := seq(len, _ => 0);
      RepetitionDraftsItself(text, 0, nMax, minMatch, maxMatch);
    }
  }
}
