/** What a turn answers, told token by token from the samplers' own draws: which tokens, how many of them are
    reasoning that is not charged to the answer, and why the answer ends. The decode loop computes exactly that. */
module Answers {
  import opened Basics
  import opened Decoder

  /** A sampler that ignores what is emitted. */
  function Silent(): (int, Token) -> (bool, int) {
    (state, _) => (false, state)
  }

  /** A run of draws, told without a loop: states[i] is the sampler's state before the i-th draw. */
  datatype Run = Run(m: Backend, draw: (int, seq<Token>) -> (Token, int), accept: (int, Token) -> (bool, int),
                     allowance: nat, prompt: seq<Token>, nPredict: nat, nCtx: int) {
    /** The draw after i tokens: the token, and the state that it leaves. */
    function Drawn(states: seq<int>, answer: seq<Token>, i: nat): (Token, int)
      requires i < |states| && i <= |answer|
    {
      draw(states[i], prompt + answer[..i])
    }

    /** Whether the sampler's observer puts the i-th token in the reasoning span. */
    predicate InSpan(states: seq<int>, answer: seq<Token>, i: nat)
      requires i < |answer| && i < |states|
    {
      accept(Drawn(states, answer, i).1, answer[i]).0
    }

    /** Of the first n tokens, those in the reasoning span. */
    function Span(states: seq<int>, answer: seq<Token>, n: nat): set<int>
      requires n <= |answer| && n <= |states|
    {
      set i | 0 <= i < n && InSpan(states, answer, i)
    }

    function Reasoning(states: seq<int>, answer: seq<Token>, n: nat): nat
      requires n <= |answer| && n <= |states|
    {
      Min(allowance, |Span(states, answer, n)|)
    }

    /** The i-th token is drawn, accepted and emitted: it does not end the generation, there is room to decode it,
        and the tokens before it that are charged to the answer do not use it up. */
    ghost predicate Emits(states: seq<int>, answer: seq<Token>, i: nat)
      requires i < |answer| && i + 1 < |states|
    {
      var (t, state) := Drawn(states, answer, i);
      && answer[i] == t && !m.isEog(t) && states[i + 1] == accept(state, t).1
      && |prompt| + i + 1 < nCtx && i - Reasoning(states, answer, i) < nPredict
    }

    ghost predicate Starts(state: int, states: seq<int>, answer: seq<Token>) {
      && |states| == |answer| + 1 && states[0] == state
      && forall i {:trigger Emits(states, answer, i)} :: 0 <= i < |answer| ==> Emits(states, answer, i)
    }

    /** The answer from a first state: it cannot go on, for the first of the three reasons; `last` is the state that
        the last draw leaves. */
    ghost predicate Gives(state: int, states: seq<int>, answer: seq<Token>, finish: Finish, tally: Tally, last: int) {
      && Starts(state, states, answer)
      && var n := |answer|;
         var (t, after) := Drawn(states, answer, n);
         && tally.reasoning == Reasoning(states, answer, n) && tally.charged == n - tally.reasoning && last == after
         && match finish
            case Length => tally.charged == nPredict
            case Stop => tally.charged < nPredict && m.isEog(t)
            case ContextFull => tally.charged < nPredict && !m.isEog(t) && |prompt| + n + 1 >= nCtx
            case _ => false
    }
  }

  // ---- the loop draws so ----

  /** The samplers of a decode loop, wrapped around the states of a run. */
  ghost predicate Follows(r: Run, wrap: int -> Sampler) {
    && (forall state: int, context: seq<Token> {:trigger DrawsAs(r, wrap, state, context)} ::
          DrawsAs(r, wrap, state, context))
    && (forall state: int, t: Token {:trigger AcceptsAs(r, wrap, state, t)} :: AcceptsAs(r, wrap, state, t))
    && forall state: int {:trigger AllowsAs(r, wrap, state)} :: AllowsAs(r, wrap, state)
  }

  ghost predicate DrawsAs(r: Run, wrap: int -> Sampler, state: int, context: seq<Token>) {
    Draw(r.m, wrap(state), context) == (r.draw(state, context).0, wrap(r.draw(state, context).1))
  }

  ghost predicate AcceptsAs(r: Run, wrap: int -> Sampler, state: int, t: Token) {
    Accept(r.m, wrap(state), t) == (r.accept(state, t).0, wrap(r.accept(state, t).1))
  }

  ghost predicate AllowsAs(r: Run, wrap: int -> Sampler, state: int) {
    Allowance(wrap(state)) == r.allowance
  }

  /** The tally after n tokens. */
  function TallyAt(r: Run, states: seq<int>, answer: seq<Token>, n: nat): (t: Tally)
    requires n <= |answer| && n <= |states|
    ensures t.reasoning <= r.allowance && t.charged + t.reasoning == n
  {
    SpanSize(r, states, answer, n);
    Tally(n - r.Reasoning(states, answer, n), r.Reasoning(states, answer, n))
  }

  lemma {:induction false} SpanSize(r: Run, states: seq<int>, answer: seq<Token>, n: nat)
    requires n <= |answer| && n <= |states|
    ensures |r.Span(states, answer, n)| <= n
  {
    if n > 0 {
      SpanSize(r, states, answer, n - 1);
      SpanGrows(r, states, answer, n - 1);
    }
  }

  lemma SpanGrows(r: Run, states: seq<int>, answer: seq<Token>, n: nat)
    requires n < |answer| && n < |states|
    ensures |r.Span(states, answer, n + 1)|
            == |r.Span(states, answer, n)| + if r.InSpan(states, answer, n) then 1 else 0
  {
    var now, next, grown := r.Span(states, answer, n), r.Span(states, answer, n + 1), r.InSpan(states, answer, n);
    forall i
      ensures i in next <==> i in now || (grown && i == n)
    {
    }
    OneMore(now, next, n, grown);
  }

  /** One more token is charged to the one allowance or to the other. */
  lemma ChargedOnce(r: Run, states: seq<int>, answer: seq<Token>, n: nat)
    requires n < |answer| && n < |states|
    ensures TallyAt(r, states, answer, n + 1)
            == Charge(TallyAt(r, states, answer, n), r.InSpan(states, answer, n), r.allowance)
  {
    SpanGrows(r, states, answer, n);
  }

  /** The loop from the first draw on. */
  function LoopOf(r: Run, s: Sampler): Generation {
    StatelessDecode(r.m, r.prompt, s, r.nPredict, r.nCtx)
  }

  /** The loop after n tokens. */
  function LoopAt(r: Run, wrap: int -> Sampler, states: seq<int>, answer: seq<Token>, n: nat): Generation
    requires Follows(r, wrap) && n <= |answer| && n < |states| && TallyAt(r, states, answer, n).charged <= r.nPredict
  {
    var (t, state) := r.Drawn(states, answer, n);
    assert AllowsAs(r, wrap, state);
    OneTokenLoop(r.m, r.prompt + answer[..n], t, wrap(state), TallyAt(r, states, answer, n), r.nPredict, r.nCtx)
  }

  /** It emits what the run draws. */
  lemma LoopUnrolls(r: Run, wrap: int -> Sampler, state: int, states: seq<int>, answer: seq<Token>, n: nat)
    requires Follows(r, wrap) && r.Starts(state, states, answer) && n <= |answer|
    ensures TallyAt(r, states, answer, n).charged <= r.nPredict
    ensures LoopOf(r, wrap(state)) == Prepend(answer[..n], LoopAt(r, wrap, states, answer, n))
  {
    var g := LoopOf(r, wrap(state));
    LoopStarts(r, wrap, state, states, answer);
    for i := 0 to n
      invariant TallyAt(r, states, answer, i).charged <= r.nPredict
      invariant g == Prepend(answer[..i], LoopAt(r, wrap, states, answer, i))
    {
      assert r.Emits(states, answer, i);
      UnrollsOnce(r, wrap, states, answer, i, g);
    }
  }

  lemma UnrollsOnce(r: Run, wrap: int -> Sampler, states: seq<int>, answer: seq<Token>, n: nat, g: Generation)
    requires Follows(r, wrap) && n < |answer| && n + 1 < |states| && r.Emits(states, answer, n)
    requires TallyAt(r, states, answer, n).charged <= r.nPredict
    requires g == Prepend(answer[..n], LoopAt(r, wrap, states, answer, n))
    ensures TallyAt(r, states, answer, n + 1).charged <= r.nPredict
    ensures g == Prepend(answer[..n + 1], LoopAt(r, wrap, states, answer, n + 1))
  {
    WithinAnswer(r, states, answer, n);
    LoopSteps(r, wrap, states, answer, n);
    PrependAssoc(answer[..n], [answer[n]], LoopAt(r, wrap, states, answer, n + 1));
    assert answer[..n] + [answer[n]] == answer[..n + 1];
  }

  lemma LoopStarts(r: Run, wrap: int -> Sampler, state: int, states: seq<int>, answer: seq<Token>)
    requires Follows(r, wrap) && |states| > 0 && states[0] == state
    ensures TallyAt(r, states, answer, 0) == Tally(0, 0)
    ensures LoopOf(r, wrap(state)) == Prepend(answer[..0], LoopAt(r, wrap, states, answer, 0))
  {
    assert r.prompt + answer[..0] == r.prompt;
    assert r.Span(states, answer, 0) == {};
    assert DrawsAs(r, wrap, state, r.prompt);
    assert answer[..0] + LoopOf(r, wrap(state)).emitted == LoopOf(r, wrap(state)).emitted;
  }

  lemma WithinAnswer(r: Run, states: seq<int>, answer: seq<Token>, n: nat)
    requires n < |answer| && n + 1 < |states| && r.Emits(states, answer, n)
    ensures TallyAt(r, states, answer, n + 1).charged <= r.nPredict
  {
    ChargedOnce(r, states, answer, n);
  }

  lemma LoopSteps(r: Run, wrap: int -> Sampler, states: seq<int>, answer: seq<Token>, n: nat)
    requires Follows(r, wrap) && n < |answer| && n + 1 < |states| && r.Emits(states, answer, n)
    requires TallyAt(r, states, answer, n + 1).charged <= r.nPredict
    ensures TallyAt(r, states, answer, n).charged < r.nPredict
    ensures LoopAt(r, wrap, states, answer, n) == Prepend([answer[n]], LoopAt(r, wrap, states, answer, n + 1))
  {
    var (t, state) := r.Drawn(states, answer, n);
    ChargedOnce(r, states, answer, n);
    var context := r.prompt + answer[..n];
    assert context + [t] == r.prompt + answer[..n + 1];
    var next := states[n + 1];
    assert AllowsAs(r, wrap, state) && AcceptsAs(r, wrap, state, t) && DrawsAs(r, wrap, next, context + [t]);
  }

  /** Whatever answer the run gives is the loop's. */
  lemma GivenIsLoop(r: Run, wrap: int -> Sampler, state: int, states: seq<int>, answer: seq<Token>, finish: Finish,
                    tally: Tally, last: int)
    requires Follows(r, wrap) && r.Gives(state, states, answer, finish, tally, last)
    ensures LoopOf(r, wrap(state)) == Generation(answer, finish, wrap(last), tally)
  {
    LoopUnrolls(r, wrap, state, states, answer, |answer|);
    assert answer[..|answer|] == answer;
  }

  /** And it gives one: it goes on until it cannot. */
  lemma {:induction false} GivesOne(r: Run, state: int, states: seq<int>, answer: seq<Token>)
    returns (states': seq<int>, answer': seq<Token>, finish: Finish, tally: Tally, last: int)
    requires r.Starts(state, states, answer) && TallyAt(r, states, answer, |answer|).charged <= r.nPredict
    ensures r.Gives(state, states', answer', finish, tally, last)
    decreases r.nPredict + r.allowance - |answer|
  {
    var n := |answer|;
    var (t, after) := r.Drawn(states, answer, n);
    tally, last := TallyAt(r, states, answer, n), after;
    if tally.charged == r.nPredict || r.m.isEog(t) || |r.prompt| + n + 1 >= r.nCtx {
      states', answer' := states, answer;
      finish := if tally.charged == r.nPredict then Length else if r.m.isEog(t) then Stop else ContextFull;
    } else {
      var more := states + [r.accept(after, t).1];
      StartsLonger(r, state, states, answer, t, more);
      states', answer', finish, tally, last := GivesOne(r, state, more, answer + [t]);
    }
  }

  lemma StartsLonger(r: Run, state: int, states: seq<int>, answer: seq<Token>, t: Token, more: seq<int>)
    requires r.Starts(state, states, answer) && TallyAt(r, states, answer, |answer|).charged < r.nPredict
    requires t == r.Drawn(states, answer, |answer|).0 && !r.m.isEog(t) && |r.prompt| + |answer| + 1 < r.nCtx
    requires more == states + [r.accept(r.Drawn(states, answer, |answer|).1, t).1]
    ensures r.Starts(state, more, answer + [t])
    ensures TallyAt(r, more, answer + [t], |answer| + 1).charged <= r.nPredict
    ensures |answer| + 1 <= r.nPredict + r.allowance
  {
    var longer, n := answer + [t], |answer|;
    forall i | 0 <= i <= n
      ensures r.Drawn(more, longer, i) == r.Drawn(states, answer, i)
      ensures r.Span(more, longer, i) == r.Span(states, answer, i)
    {
      SameRun(r, states, answer, more, longer, i);
    }
    forall i | 0 <= i < |longer|
      ensures r.Emits(more, longer, i)
    {
      assert i < n ==> r.Emits(states, answer, i);
    }
    ChargedOnce(r, more, longer, n);
  }

  lemma SameRun(r: Run, states: seq<int>, answer: seq<Token>, more: seq<int>, longer: seq<Token>, n: nat)
    requires n <= |answer| && n < |states| && states <= more && answer <= longer
    ensures r.Drawn(more, longer, n) == r.Drawn(states, answer, n)
    ensures r.Span(more, longer, n) == r.Span(states, answer, n)
  {
    forall i | 0 <= i <= n
      ensures r.Drawn(more, longer, i) == r.Drawn(states, answer, i)
    {
      assert longer[..i] == answer[..i];
    }
  }

  /** The loop's answer is the one answer that the run gives. */
  lemma LoopGives(r: Run, wrap: int -> Sampler, state: int, answer: seq<Token>, finish: Finish, tally: Tally, last: int)
    requires Follows(r, wrap) && forall a: int, b: int :: wrap(a) == wrap(b) ==> a == b
    ensures (exists states :: r.Gives(state, states, answer, finish, tally, last))
            <==> LoopOf(r, wrap(state)) == Generation(answer, finish, wrap(last), tally)
  {
    var states', answer', finish', tally', last' := GivesOne(r, state, [state], []);
    GivenIsLoop(r, wrap, state, states', answer', finish', tally', last');
    if states :| r.Gives(state, states, answer, finish, tally, last) {
      GivenIsLoop(r, wrap, state, states, answer, finish, tally, last);
    }
  }

  /** Under a reasoning budget: every token is drawn by the budget's sampler from the state that the tokens before
      leave; those that its observer puts in the span are not charged to the answer, up to the allowance; and the
      answer ends when nPredict others are emitted, at an end of generation, or where the context ends. */
  lemma BudgetMeaning(m: Backend, prompt: seq<Token>, state: int, allowance: int, nPredict: nat, nCtx: int,
                      answer: seq<Token>, finish: Finish, tally: Tally, last: int)
    ensures var r := Run(m, m.budgetDraw, m.budgetAccept, Max(0, allowance), prompt, nPredict, nCtx);
            (exists states :: r.Gives(state, states, answer, finish, tally, last))
            <==> StatelessDecode(m, prompt, Budget(state, allowance), nPredict, nCtx)
                 == Generation(answer, finish, Budget(last, allowance), tally)
  {
    var r := Run(m, m.budgetDraw, m.budgetAccept, Max(0, allowance), prompt, nPredict, nCtx);
    LoopGives(r, st => Budget(st, allowance), state, answer, finish, tally, last);
  }

  /** From a sampling chain: every token is drawn by the chain, which is left as the last draw leaves it, and every
      one is charged. */
  lemma ChainMeaning(m: Backend, prompt: seq<Token>, rng: int, nPredict: nat, nCtx: int, answer: seq<Token>,
                     finish: Finish, tally: Tally, last: int)
    ensures var r := Run(m, m.chainDraw, Silent(), 0, prompt, nPredict, nCtx);
            (exists states :: r.Gives(rng, states, answer, finish, tally, last))
            <==> StatelessDecode(m, prompt, Chain(rng), nPredict, nCtx)
                 == Generation(answer, finish, Chain(last), tally)
  {
    var r := Run(m, m.chainDraw, Silent(), 0, prompt, nPredict, nCtx);
    LoopGives(r, st => Chain(st), rng, answer, finish, tally, last);
  }

  /** So a budget's loop and a chain's have their states. */
  lemma BudgetStates(m: Backend, prompt: seq<Token>, state: int, allowance: int, nPredict: nat, nCtx: int)
    returns (states: seq<int>, last: int)
    ensures var g := StatelessDecode(m, prompt, Budget(state, allowance), nPredict, nCtx);
            && g.sampler == Budget(last, allowance)
            && Run(m, m.budgetDraw, m.budgetAccept, Max(0, allowance), prompt, nPredict, nCtx)
                 .Gives(state, states, g.emitted, g.finish, g.tally, last)
  {
    var r := Run(m, m.budgetDraw, m.budgetAccept, Max(0, allowance), prompt, nPredict, nCtx);
    var answer, finish, tally;
    states, answer, finish, tally, last := GivesOne(r, state, [state], []);
    GivenIsLoop(r, st => Budget(st, allowance), state, states, answer, finish, tally, last);
  }

  lemma ChainStates(m: Backend, prompt: seq<Token>, rng: int, nPredict: nat, nCtx: int)
    returns (states: seq<int>, last: int)
    ensures var g := StatelessDecode(m, prompt, Chain(rng), nPredict, nCtx);
            && g.sampler == Chain(last)
            && Run(m, m.chainDraw, Silent(), 0, prompt, nPredict, nCtx)
                 .Gives(rng, states, g.emitted, g.finish, g.tally, last)
  {
    var r := Run(m, m.chainDraw, Silent(), 0, prompt, nPredict, nCtx);
    var answer, finish, tally;
    states, answer, finish, tally, last := GivesOne(r, rng, [rng], []);
    GivenIsLoop(r, st => Chain(st), rng, states, answer, finish, tally, last);
  }

  /** A greedy loop leaves the sampler alone and charges every token. */
  lemma GreedyCharges(m: Backend, prompt: seq<Token>, nPredict: nat, nCtx: int)
    ensures var g := StatelessDecode(m, prompt, Greedy, nPredict, nCtx);
            g.sampler == Greedy && g.tally == Tally(|g.emitted|, 0)
  {
    GreedyStays(m, prompt, m.next(prompt), Tally(0, 0), nPredict, nCtx);
    GenerationBound(m, prompt, m.next(prompt), Greedy, Tally(0, 0), nPredict, nCtx);
  }

  lemma {:induction false} GreedyStays(m: Backend, context: seq<Token>, tok: Token, tally: Tally, nPredict: nat,
                                       nCtx: int)
    requires tally.charged <= nPredict && tally.reasoning == 0
    ensures OneTokenLoop(m, context, tok, Greedy, tally, nPredict, nCtx).sampler == Greedy
    decreases nPredict - tally.charged
  {
    if tally.charged < nPredict && !m.isEog(tok) && |context| + 1 < nCtx {
      GreedyStays(m, context + [tok], m.next(context + [tok]), tally.(charged := tally.charged + 1), nPredict, nCtx);
    }
  }
}
