/** The token-level reference semantics of a turn.

    The model, the samplers and the chat template are not part of this project: a `Backend` value
    carries them as uninterpreted functions. On top of them this module defines the one-token decode
    loop, which is what every generated answer is compared with, and proves what that loop means,
    how long it can run, and that one accepted draft group is several of its steps. */
module Decoder {
  import opened Wrappers
  import opened Basics

  /** Request-scoped sampling: a temperature that is not positive selects argmax. */
  datatype Sampling = Sampling(hot: bool, seed: int)

  datatype Request = Request(
    prompt: string,
    messages: seq<Message>,
    nPredict: int,
    think: bool,
    clearKv: bool,
    reasoningBudget: int,
    overrideSampling: Option<Sampling>)

  /** What the decode loop draws its next token from. The integers name opaque sampler states. */
  datatype Sampler =
    | Greedy
    | Chain(rng: int)
    | Budget(state: int, allowance: int)

  datatype Backend = Backend(
    next: seq<Token> -> Token,                         // argmax of the logits after a token sequence
    isEog: Token -> bool,
    chainDraw: (int, seq<Token>) -> (Token, int),
    chainReset: int -> int,
    budgetInit: (Request, seq<Token>) -> Option<(int, nat)>, // sampler state and length of the forced end
    budgetDraw: (int, seq<Token>) -> (Token, int),
    budgetAccept: (int, Token) -> (bool, int),         // whether the token is in the reasoning span
    checkRequest: Request -> bool,
    renderMessages: Request -> Option<seq<Message>>,
    render: (Request, seq<Message>) -> Option<seq<Token>>,  // template, then tokenizer; None if it throws
    parse: (Request, seq<Token>) -> string)

  function MakeSampler(sampling: Sampling): Sampler {
    if sampling.hot then Chain(sampling.seed) else Greedy
  }

  function ResetSampler(m: Backend, s: Sampler): (r: Sampler) {
    match s
    case Chain(rng) => Chain(m.chainReset(rng))
    case _ => s
  }

  /** The reasoning tokens that are not charged to the answer. */
  function Allowance(s: Sampler): nat {
    if s.Budget? && s.allowance > 0 then s.allowance else 0
  }

  function Draw(m: Backend, s: Sampler, context: seq<Token>): (r: (Token, Sampler))
    ensures Allowance(r.1) == Allowance(s)
    ensures s.Greedy? <==> r.1.Greedy?
    ensures s.Budget? <==> r.1.Budget?
  {
    match s
    case Greedy => (m.next(context), Greedy)
    case Chain(rng) => var (t, rng') := m.chainDraw(rng, context); (t, Chain(rng'))
    case Budget(state, allowance) => var (t, state') := m.budgetDraw(state, context); (t, Budget(state', allowance))
  }

  /** The budget observer sees every emitted token; the other samplers ignore it. */
  function Accept(m: Backend, s: Sampler, t: Token): (r: (bool, Sampler))
    ensures Allowance(r.1) == Allowance(s)
    ensures s.Greedy? <==> r.1.Greedy?
    ensures s.Budget? <==> r.1.Budget?
    ensures !s.Budget? ==> r == (false, s)
  {
    match s
    case Budget(state, allowance) =>
      var (inSpan, state') := m.budgetAccept(state, t); (inSpan, Budget(state', allowance))
    case _ => (false, s)
  }

  /** Tokens charged to the answer allowance, and reasoning tokens that were not. */
  datatype Tally = Tally(charged: nat, reasoning: nat)

  function Charge(tally: Tally, inSpan: bool, allowance: nat): Tally {
    if inSpan && tally.reasoning < allowance
    then tally.(reasoning := tally.reasoning + 1)
    else tally.(charged := tally.charged + 1)
  }

  datatype Finish = Stop | Length | ContextFull | Cancelled | Error

  datatype Generation = Generation(emitted: seq<Token>, finish: Finish, sampler: Sampler, tally: Tally)

  function Prepend(group: seq<Token>, g: Generation): Generation {
    g.(emitted := group + g.emitted)
  }

  lemma PrependAssoc(a: seq<Token>, b: seq<Token>, g: Generation)
    ensures Prepend(a, Prepend(b, g)) == Prepend(a + b, g)
  {
    assert a + (b + g.emitted) == (a + b) + g.emitted;
  }

  /** The plain decode loop: `tok` is drawn but not yet decoded, `context` is what has been decoded. */
  function OneTokenLoop(m: Backend, context: seq<Token>, tok: Token, s: Sampler, tally: Tally, nPredict: nat, nCtx: int)
    : (g: Generation)
    requires tally.charged <= nPredict && tally.reasoning <= Allowance(s)
    decreases nPredict - tally.charged + Allowance(s) - tally.reasoning
  {
    if tally.charged == nPredict then Generation([], Length, s, tally)
    else if m.isEog(tok) then Generation([], Stop, s, tally)
    else if |context| + 1 >= nCtx then Generation([], ContextFull, s, tally)
    else
      var (inSpan, s1) := Accept(m, s, tok);
      var context' := context + [tok];
      var (tok', s2) := Draw(m, s1, context');
      Prepend([tok], OneTokenLoop(m, context', tok', s2, Charge(tally, inSpan, Allowance(s)), nPredict, nCtx))
  }

  /** What a decoder with no cache, no speculation and no memory of earlier turns answers to `prompt`. */
  function StatelessDecode(m: Backend, prompt: seq<Token>, s: Sampler, nPredict: nat, nCtx: int): Generation {
    var (tok, s1) := Draw(m, s, prompt);
    OneTokenLoop(m, prompt, tok, s1, Tally(0, 0), nPredict, nCtx)
  }

  // ---- what the loop computes ----

  /** The independent definition of a greedy answer: every token is the argmax after everything
      before it and none ends the generation; the reason it ended is the first bound that was met. */
  ghost predicate IsGreedyAnswer(m: Backend, prompt: seq<Token>, nPredict: nat, nCtx: int, answer: seq<Token>,
                                 finish: Finish) {
    && |answer| <= nPredict
    && (forall i :: 0 <= i < |answer| ==> answer[i] == m.next(prompt + answer[..i]) && !m.isEog(answer[i]))
    && (forall i :: 0 <= i < |answer| ==> |prompt| + |answer[..i]| + 1 < nCtx)
    && finish == (if |answer| == nPredict then Length
                  else if m.isEog(m.next(prompt + answer)) then Stop
                  else ContextFull)
    && (finish == ContextFull ==> |prompt| + |answer| + 1 >= nCtx)
  }

  lemma {:induction false} GreedyLoopAnswers(m: Backend, context: seq<Token>, charged: nat, nPredict: nat, nCtx: int)
    requires charged <= nPredict
    ensures var g := OneTokenLoop(m, context, m.next(context), Greedy, Tally(charged, 0), nPredict, nCtx);
            IsGreedyAnswer(m, context, nPredict - charged, nCtx, g.emitted, g.finish)
    decreases nPredict - charged
  {
    var tok := m.next(context);
    assert context + [] == context;
    if charged < nPredict && !m.isEog(tok) && |context| + 1 < nCtx {
      GreedyLoopAnswers(m, context + [tok], charged + 1, nPredict, nCtx);
      GreedyStep(m, context, tok, Tally(charged, 0), nPredict, nCtx);
      var r := OneTokenLoop(m, context + [tok], m.next(context + [tok]), Greedy, Tally(charged + 1, 0), nPredict, nCtx);
      AnswerGrows(m, context, nPredict - charged, nCtx, r.emitted, r.finish);
    }
  }

  /** A greedy answer to a prompt that already has the first token, with that token in front of it. */
  lemma AnswerGrows(m: Backend, context: seq<Token>, nPredict: nat, nCtx: int, rest: seq<Token>, finish: Finish)
    requires nPredict > 0 && !m.isEog(m.next(context)) && |context| + 1 < nCtx
    requires IsGreedyAnswer(m, context + [m.next(context)], nPredict - 1, nCtx, rest, finish)
    ensures IsGreedyAnswer(m, context, nPredict, nCtx, [m.next(context)] + rest, finish)
  {
    var tok := m.next(context);
    var answer := [tok] + rest;
    assert context + [tok] + rest == context + answer;
    forall i | 0 <= i < |answer|
      ensures answer[i] == m.next(context + answer[..i]) && !m.isEog(answer[i]) && |context| + i + 1 < nCtx
    {
      if i == 0 {
        assert context + answer[..0] == context;
      } else {
        assert answer[i] == rest[i - 1] && |rest[..i - 1]| == i - 1;
        assert context + answer[..i] == context + [tok] + rest[..i - 1];
      }
    }
  }

  lemma GreedyAnswerIsUnique(m: Backend, prompt: seq<Token>, nPredict: nat, nCtx: int,
                                                a: seq<Token>, fa: Finish, b: seq<Token>, fb: Finish)
    requires IsGreedyAnswer(m, prompt, nPredict, nCtx, a, fa)
    requires IsGreedyAnswer(m, prompt, nPredict, nCtx, b, fb)
    ensures a == b && fa == fb
  {
    SharedPrefix(m, prompt, nPredict, nCtx, a, fa, b, fb, if |a| <= |b| then |a| else |b|);
    var shorter, longer := if |a| <= |b| then a else b, if |a| <= |b| then b else a;
    assert shorter == longer[..|shorter|];
  }

  lemma {:induction false} SharedPrefix(m: Backend, prompt: seq<Token>, nPredict: nat, nCtx: int,
                                        a: seq<Token>, fa: Finish, b: seq<Token>, fb: Finish, n: nat)
    requires IsGreedyAnswer(m, prompt, nPredict, nCtx, a, fa)
    requires IsGreedyAnswer(m, prompt, nPredict, nCtx, b, fb)
    requires n <= |a| && n <= |b|
    ensures a[..n] == b[..n]
  {
    if n > 0 {
      SharedPrefix(m, prompt, nPredict, nCtx, a, fa, b, fb, n - 1);
      assert a[n - 1] == m.next(prompt + a[..n - 1]) && b[n - 1] == m.next(prompt + b[..n - 1]);
      assert a[..n] == a[..n - 1] + [a[n - 1]] && b[..n] == b[..n - 1] + [b[n - 1]];
    }
  }

  /** The stateless greedy answer is the one answer that meets the definition above. */
  lemma GreedyMeaning(m: Backend, prompt: seq<Token>, nPredict: nat, nCtx: int, answer: seq<Token>, finish: Finish)
    ensures var g := StatelessDecode(m, prompt, Greedy, nPredict, nCtx);
            IsGreedyAnswer(m, prompt, nPredict, nCtx, answer, finish) <==> (answer == g.emitted && finish == g.finish)
  {
    var g := StatelessDecode(m, prompt, Greedy, nPredict, nCtx);
    GreedyLoopAnswers(m, prompt, 0, nPredict, nCtx);
    if IsGreedyAnswer(m, prompt, nPredict, nCtx, answer, finish) {
      GreedyAnswerIsUnique(m, prompt, nPredict, nCtx, answer, finish, g.emitted, g.finish);
    }
  }

  // ---- how long it runs ----

  /** However often the reasoning span reopens: every token is charged once, to one of the two
      allowances, so a turn ends within nPredict + allowance tokens. */
  lemma {:induction false} GenerationBound(m: Backend, context: seq<Token>, tok: Token, s: Sampler, tally: Tally,
                                           nPredict: nat, nCtx: int)
    requires tally.charged <= nPredict && tally.reasoning <= Allowance(s)
    ensures var g := OneTokenLoop(m, context, tok, s, tally, nPredict, nCtx);
            && tally.charged + tally.reasoning + |g.emitted| == g.tally.charged + g.tally.reasoning
            && g.tally.charged <= nPredict && g.tally.reasoning <= Allowance(s)
            && (g.finish == Length ==> g.tally.charged == nPredict)
    decreases nPredict - tally.charged + Allowance(s) - tally.reasoning
  {
    if tally.charged < nPredict && !m.isEog(tok) && |context| + 1 < nCtx {
      var (inSpan, s1) := Accept(m, s, tok);
      var (tok', s2) := Draw(m, s1, context + [tok]);
      GenerationBound(m, context + [tok], tok', s2, Charge(tally, inSpan, Allowance(s)), nPredict, nCtx);
    }
  }

  /** A context with room for the whole output allowance never fills up. */
  lemma {:induction false} RoomySpaceNeverFull(m: Backend, context: seq<Token>, tok: Token, s: Sampler, tally: Tally,
                                               nPredict: nat, nCtx: int)
    requires tally.charged <= nPredict && tally.reasoning <= Allowance(s)
    requires |context| + (nPredict - tally.charged) + (Allowance(s) - tally.reasoning) < nCtx
    ensures OneTokenLoop(m, context, tok, s, tally, nPredict, nCtx).finish in {Stop, Length}
    decreases nPredict - tally.charged + Allowance(s) - tally.reasoning
  {
    if tally.charged < nPredict && !m.isEog(tok) {
      var (inSpan, s1) := Accept(m, s, tok);
      var (tok', s2) := Draw(m, s1, context + [tok]);
      RoomySpaceNeverFull(m, context + [tok], tok', s2, Charge(tally, inSpan, Allowance(s)), nPredict, nCtx);
    }
  }

  /** The capacity of a context does not show in an answer that it does not cut. */
  lemma {:induction false} RoomDoesNotMatter(m: Backend, context: seq<Token>, tok: Token, s: Sampler, tally: Tally,
                                             nPredict: nat, nCtx: int, nCtx': int)
    requires tally.charged <= nPredict && tally.reasoning <= Allowance(s)
    requires OneTokenLoop(m, context, tok, s, tally, nPredict, nCtx).finish != ContextFull
    requires OneTokenLoop(m, context, tok, s, tally, nPredict, nCtx').finish != ContextFull
    ensures OneTokenLoop(m, context, tok, s, tally, nPredict, nCtx)
            == OneTokenLoop(m, context, tok, s, tally, nPredict, nCtx')
    decreases nPredict - tally.charged + Allowance(s) - tally.reasoning
  {
    if tally.charged < nPredict && !m.isEog(tok) {
      var (inSpan, s1) := Accept(m, s, tok);
      var (tok', s2) := Draw(m, s1, context + [tok]);
      RoomDoesNotMatter(m, context + [tok], tok', s2, Charge(tally, inSpan, Allowance(s)), nPredict, nCtx, nCtx');
    }
  }

  /** A loop that never draws an end of generation, and may emit more than the context holds, fills it. */
  lemma {:induction false} EndlessFillsContext(m: Backend, context: seq<Token>, tok: Token, s: Sampler, tally: Tally,
                                               nPredict: nat, nCtx: int)
    requires tally.charged <= nPredict && tally.reasoning <= Allowance(s)
    requires forall t :: !m.isEog(t)
    requires forall state, t {:trigger m.budgetAccept(state, t)} :: !m.budgetAccept(state, t).0
    requires nCtx <= |context| + (nPredict - tally.charged)
    ensures tally.charged < nPredict ==> OneTokenLoop(m, context, tok, s, tally, nPredict, nCtx).finish == ContextFull
    decreases nPredict - tally.charged
  {
    if tally.charged < nPredict && |context| + 1 < nCtx {
      var (inSpan, s1) := Accept(m, s, tok);
      var (tok', s2) := Draw(m, s1, context + [tok]);
      EndlessFillsContext(m, context + [tok], tok', s2, Charge(tally, inSpan, Allowance(s)), nPredict, nCtx);
    }
  }

  // ---- one verified draft group is several steps of the loop ----

  /** How many drafts the target accepts after `context`; an accepted end of generation is the last. */
  function AcceptCount(m: Backend, context: seq<Token>, draft: seq<Token>): (n: nat)
    ensures n <= |draft|
    decreases |draft|
  {
    if draft == [] || m.next(context) != draft[0] then 0
    else if m.isEog(draft[0]) then 1
    else 1 + AcceptCount(m, context + [draft[0]], draft[1..])
  }

  /** The emitted part of the accepted drafts: an end of generation is decoded but never emitted. */
  function AcceptedText(m: Backend, context: seq<Token>, draft: seq<Token>): (text: seq<Token>)
    ensures text <= draft
    ensures |text| <= AcceptCount(m, context, draft) <= |text| + 1
    decreases |draft|
  {
    if draft == [] || m.next(context) != draft[0] || m.isEog(draft[0]) then []
    else [draft[0]] + AcceptedText(m, context + [draft[0]], draft[1..])
  }

  predicate HitsEog(m: Backend, context: seq<Token>, draft: seq<Token>) {
    AcceptCount(m, context, draft) == |AcceptedText(m, context, draft)| + 1
  }

  /** The next step of the scan over the drafts, told from the front of the verified part. */
  lemma {:induction false} AcceptStep(m: Backend, context: seq<Token>, draft: seq<Token>, i: nat)
    requires i < |draft|
    requires forall k :: 0 <= k < i ==> draft[k] == m.next(context + draft[..k]) && !m.isEog(draft[k])
    ensures draft[i] != m.next(context + draft[..i]) ==>
              AcceptCount(m, context, draft) == i && AcceptedText(m, context, draft) == draft[..i]
    ensures draft[i] == m.next(context + draft[..i]) && m.isEog(draft[i]) ==>
              AcceptCount(m, context, draft) == i + 1 && AcceptedText(m, context, draft) == draft[..i]
    ensures draft[i] == m.next(context + draft[..i]) && !m.isEog(draft[i]) && i + 1 == |draft| ==>
              AcceptCount(m, context, draft) == i + 1 && AcceptedText(m, context, draft) == draft
    decreases i
  {
    assert context + draft[..0] == context;
    if i > 0 {
      assert draft[0] == m.next(context + draft[..0]) && !m.isEog(draft[0]);
      forall k | 0 <= k < i
        ensures context + [draft[0]] + draft[1..][..k] == context + draft[..k + 1]
      {
        assert [draft[0]] + draft[1..][..k] == draft[..k + 1];
      }
      AcceptStep(m, context + [draft[0]], draft[1..], i - 1);
      assert [draft[0]] + draft[1..][..i - 1] == draft[..i];
      assert [draft[0]] + draft[1..] == draft;
    } else if draft[0] == m.next(context) && !m.isEog(draft[0]) && |draft| == 1 {
      assert draft == [draft[0]];
    }
  }

  /** What is left of a greedy answer once a group has been emitted after `context`: nothing if the group
      ran into the end of generation, and otherwise what the loop goes on to emit. */
  function AfterGroup(m: Backend, context: seq<Token>, group: seq<Token>, tally: Tally, nPredict: nat, nCtx: int,
                      stops: bool)
    : Generation
    requires tally.reasoning == 0 && tally.charged + |group| <= nPredict
  {
    var now, tally' := context + group, tally.(charged := tally.charged + |group|);
    if stops then Generation(group, Stop, Greedy, tally')
    else Prepend(group, OneTokenLoop(m, now, m.next(now), Greedy, tally', nPredict, nCtx))
  }

  /** Speculation refines greedy decoding: a verified group is exactly that many steps of the
      one-token loop, whatever was drafted, as long as the draft keeps to the room it was given. */
  lemma {:induction false} GroupIsSteps(m: Backend, context: seq<Token>, tok: Token, tally: Tally, nPredict: nat,
                                        nCtx: int, draft: seq<Token>)
    requires tally.reasoning == 0 && tally.charged < nPredict
    requires !m.isEog(tok) && |context| + 1 < nCtx
    requires |draft| <= nPredict - tally.charged - 1
    requires draft == [] || |draft| <= nCtx - |context| - 2
    ensures var group := [tok] + AcceptedText(m, context + [tok], draft);
            && tally.charged + |group| <= nPredict
            && OneTokenLoop(m, context, tok, Greedy, tally, nPredict, nCtx)
               == AfterGroup(m, context, group, tally, nPredict, nCtx, HitsEog(m, context + [tok], draft))
    decreases |draft|
  {
    var decoded := context + [tok];
    var tok1 := m.next(decoded);
    var tally1 := tally.(charged := tally.charged + 1);
    GreedyStep(m, context, tok, tally, nPredict, nCtx);
    if draft == [] || tok1 != draft[0] || m.isEog(tok1) {
      GroupOfOne(m, decoded, tok, draft);
    } else {
      AcceptedOneMore(m, decoded, draft);
      GroupIsSteps(m, decoded, tok1, tally1, nPredict, nCtx, draft[1..]);
      JoinSteps(m, context, tok, AcceptedText(m, decoded, draft), tally, nPredict, nCtx, HitsEog(m, decoded, draft));
    }
  }

  lemma GroupOfOne(m: Backend, decoded: seq<Token>, tok: Token, draft: seq<Token>)
    requires draft == [] || m.next(decoded) != draft[0] || m.isEog(draft[0])
    ensures [tok] + AcceptedText(m, decoded, draft) == [tok]
    ensures HitsEog(m, decoded, draft) <==> draft != [] && m.next(decoded) == draft[0]
  {
  }

  lemma AcceptedOneMore(m: Backend, decoded: seq<Token>, draft: seq<Token>)
    requires draft != [] && draft[0] == m.next(decoded) && !m.isEog(draft[0])
    ensures AcceptedText(m, decoded, draft) == [draft[0]] + AcceptedText(m, decoded + [draft[0]], draft[1..])
    ensures HitsEog(m, decoded, draft) == HitsEog(m, decoded + [draft[0]], draft[1..])
  {
  }

  lemma GreedyStep(m: Backend, context: seq<Token>, tok: Token, tally: Tally, nPredict: nat, nCtx: int)
    requires tally.reasoning == 0 && tally.charged < nPredict
    requires !m.isEog(tok) && |context| + 1 < nCtx
    ensures OneTokenLoop(m, context, tok, Greedy, tally, nPredict, nCtx)
            == Prepend([tok], OneTokenLoop(m, context + [tok], m.next(context + [tok]), Greedy,
                                           tally.(charged := tally.charged + 1), nPredict, nCtx))
  {
  }

  /** A step followed by a group is a longer group. */
  lemma JoinSteps(m: Backend, context: seq<Token>, tok: Token, group: seq<Token>, tally: Tally, nPredict: nat,
                  nCtx: int, stops: bool)
    requires tally.reasoning == 0 && tally.charged + 1 + |group| <= nPredict
    requires !m.isEog(tok) && |context| + 1 < nCtx
    requires var decoded, tally1 := context + [tok], tally.(charged := tally.charged + 1);
             OneTokenLoop(m, decoded, m.next(decoded), Greedy, tally1, nPredict, nCtx)
             == AfterGroup(m, decoded, group, tally1, nPredict, nCtx, stops)
    ensures OneTokenLoop(m, context, tok, Greedy, tally, nPredict, nCtx)
            == AfterGroup(m, context, [tok] + group, tally, nPredict, nCtx, stops)
  {
    GreedyStep(m, context, tok, tally, nPredict, nCtx);
    var after := context + [tok] + group;
    assert after == context + ([tok] + group);
    if !stops {
      var tally2 := tally.(charged := tally.charged + 1 + |group|);
      PrependAssoc([tok], group, OneTokenLoop(m, after, m.next(after), Greedy, tally2, nPredict, nCtx));
    }
  }

  /** Greedy is needed: when the second token that a sampling chain draws is not the argmax, a group that
      drafted the argmax is not the beginning of what the chain would emit. */
  lemma SampledGroupDiverges(m: Backend, prompt: seq<Token>, s: Sampler, d: Token, nPredict: nat, nCtx: int)
    requires s.Chain? && nPredict >= 2 && |prompt| + 2 < nCtx
    requires var (tok, s1) := Draw(m, s, prompt);
             && !m.isEog(tok) && m.next(prompt + [tok]) == d && !m.isEog(d)
             && Draw(m, s1, prompt + [tok]).0 != d
    ensures var (tok, s1) := Draw(m, s, prompt);
            !([tok] + AcceptedText(m, prompt + [tok], [d]) <= StatelessDecode(m, prompt, s, nPredict, nCtx).emitted)
  {
    var (tok, s1) := Draw(m, s, prompt);
    var one := prompt + [tok];
    var (tok1, s2) := Draw(m, s1, one);
    var rest := OneTokenLoop(m, one, tok1, s2, Tally(1, 0), nPredict, nCtx);
    assert StatelessDecode(m, prompt, s, nPredict, nCtx).emitted == [tok] + rest.emitted;
    assert ([tok] + AcceptedText(m, one, [d]))[1] == d;
    assert rest.emitted == [] || rest.emitted[0] == tok1;
  }

  /** A backend that plans the given prompt, whose argmax is always d, and whose chain draws 2 after the
      prompt and 3 after anything else. */
  function Split(prompt: seq<Token>, d: Token): Backend {
    Backend(_ => d, _ => false, (rng: int, context: seq<Token>) => (if |context| == |prompt| then 2 else 3, rng),
            rng => rng, (_, _) => None, (rng: int, _) => (2, rng), (rng: int, _) => (false, rng), _ => true,
            _ => Some([]), (_, _) => Some(prompt), (_, _) => "")
  }

  /** A backend that plans the given prompt and never stops or reasons. */
  function Endless(prompt: seq<Token>): Backend {
    Split(prompt, 1).(budgetInit := (_, _) => Some((0, 1)))
  }
}
