/** What a conversation holds after its turns, told from the requests, the answers and the backend alone: which
    transcript each prompt is rendered from, which sampler answers it, and what a completed turn leaves behind. */
module Transcript {
  import opened Wrappers
  import opened Basics
  import opened Decoder
  import opened Conversation
  import opened Config
  import opened Answers

  /** The transcript and the sampler that a turn starts from: a new chat has none, and a chain that was reset. */
  ghost predicate StartsFrom(m: Backend, before: ChatState, req: Request, history: seq<Message>, sampler: Sampler) {
    && history == (if req.clearKv then [] else before.history)
    && match before.sampler
       case Greedy => sampler == Greedy
       case Chain(rng) => sampler == Chain(if req.clearKv then m.chainReset(rng) else rng)
       case Budget(_, _) => sampler == before.sampler
  }

  /** The transcript that a request asks to be answered: its own messages, or the one before and its prompt. */
  ghost predicate Asks(m: Backend, history: seq<Message>, req: Request, asked: seq<Message>) {
    if req.messages != [] then m.renderMessages(req) == Some(asked)
    else
      && |asked| == |history| + 1 && asked[|history|] == Message("user", req.prompt)
      && forall i :: 0 <= i < |history| ==> asked[i] == history[i]
  }

  /** A completed turn answers what it was asked: the transcript that it leaves is the one it rendered, and its
      answer, last. */
  lemma CompletedTurnAnswers(m: Backend, cfg: SessionConfig, before: ChatState, req: Request, res: TurnResult,
                             after: ChatState)
    returns (history: seq<Message>, sampler: Sampler, asked: seq<Message>, prompt: seq<Token>)
    requires ServesTurn(m, cfg, before, req, res, after) && res.Completed()
    ensures m.checkRequest(req) && StartsFrom(m, before, req, history, sampler) && Asks(m, history, req, asked)
    ensures m.render(req, asked) == Some(prompt) && prompt != []
    ensures |after.history| == |asked| + 1 && after.history[|asked|] == Message("assistant", m.parse(req, res.emitted))
    ensures forall i :: 0 <= i < |asked| ==> after.history[i] == asked[i]
    ensures AnswersExactly(cfg.spec, req) ==> Answered(m, cfg, sampler, req, prompt, res, after.sampler)
  {
    history, sampler := AfterReset(m, before, req).history, AfterReset(m, before, req).sampler;
    var plan := PlanTurn(m, AfterReset(m, before, req), req).value;
    asked, prompt := plan.history, plan.prompt;
    if AnswersExactly(cfg.spec, req) {
      TurnIsAnswered(m, cfg, before, req, res, after);
    }
  }

  /** Who draws the answer: a reasoning budget, whose forced end is added to the allowance; the request's own
      sampling; or the session's sampler, which alone is left as the answer leaves it. */
  ghost predicate Answered(m: Backend, cfg: SessionConfig, sampler: Sampler, req: Request, prompt: seq<Token>,
                           res: TurnResult, left: Sampler)
    requires req.nPredict >= 0
  {
    if req.reasoningBudget >= 0 then
      && left == sampler && m.budgetInit(req, prompt).Some?
      && var (state, forced) := m.budgetInit(req, prompt).value;
         DrawnBy(m, m.budgetDraw, m.budgetAccept, Max(0, Int32(req.reasoningBudget + forced)), cfg, req, prompt, state,
                 res, None)
    else match req.overrideSampling
      case Some(sampling) =>
        && left == sampler
        && if sampling.hot then DrawnBy(m, m.chainDraw, Silent(), 0, cfg, req, prompt, sampling.seed, res, None)
           else Argmax(m, cfg, req, prompt, res)
      case None =>
        match sampler
        case Greedy => left == Greedy && Argmax(m, cfg, req, prompt, res)
        case Chain(rng) =>
          && left.Chain?
          && DrawnBy(m, m.chainDraw, Silent(), 0, cfg, req, prompt, rng, res, Some(left.rng))
        case Budget(_, _) => true
  }

  /** The turn's answer is what the sampler draws, and the state given is the one it is left in. */
  ghost predicate DrawnBy(m: Backend, draw: (int, seq<Token>) -> (Token, int), accept: (int, Token) -> (bool, int),
                          allowance: nat, cfg: SessionConfig, req: Request, prompt: seq<Token>, state: int,
                          res: TurnResult, left: Option<int>)
    requires req.nPredict >= 0
  {
    exists states: seq<int>, last: int ::
      && Run(m, draw, accept, allowance, prompt, req.nPredict, cfg.nCtx)
           .Gives(state, states, res.emitted, res.finish, res.tally, last)
      && (left.Some? ==> left.value == last)
  }

  ghost predicate Argmax(m: Backend, cfg: SessionConfig, req: Request, prompt: seq<Token>, res: TurnResult)
    requires req.nPredict >= 0
  {
    IsGreedyAnswer(m, prompt, req.nPredict, cfg.nCtx, res.emitted, res.finish) && res.tally == Tally(|res.emitted|, 0)
  }

  lemma TurnIsAnswered(m: Backend, cfg: SessionConfig, before: ChatState, req: Request, res: TurnResult,
                       after: ChatState)
    requires ServesTurn(m, cfg, before, req, res, after) && res.Completed() && AnswersExactly(cfg.spec, req)
    ensures var base := AfterReset(m, before, req);
            var plan := PlanTurn(m, base, req);
            plan.Some? && Answered(m, cfg, base.sampler, req, plan.value.prompt, res, after.sampler)
  {
    var base := AfterReset(m, before, req);
    var plan := PlanTurn(m, base, req).value;
    var g := Answer(m, plan, req, cfg.nCtx);
    assert g == Generation(res.emitted, res.finish, g.sampler, res.tally);
    match plan.sampler
    case Greedy =>
      GreedyMeaning(m, plan.prompt, req.nPredict, cfg.nCtx, g.emitted, g.finish);
      GreedyCharges(m, plan.prompt, req.nPredict, cfg.nCtx);
    case Chain(rng) =>
      var states, last := ChainStates(m, plan.prompt, rng, req.nPredict, cfg.nCtx);
    case Budget(state, allowance) =>
      var states, last := BudgetStates(m, plan.prompt, state, allowance, req.nPredict, cfg.nCtx);
  }

  /** A turn that does not complete leaves what it started from; one whose length is refused has not even started. */
  lemma UndoneTurnLeaves(m: Backend, cfg: SessionConfig, before: ChatState, req: Request, res: TurnResult,
                         after: ChatState)
    requires ServesTurn(m, cfg, before, req, res, after) && !res.Completed()
    ensures if 0 < req.nPredict <= INT_MAX - 8 then StartsFrom(m, before, req, after.history, after.sampler)
            else after == before
  {
  }

  /** What it takes to be served: a length that leaves room for the accounting, a request that can be rendered and
      budgeted, and a context with room for its prompt and, as 32-bit sums, for what it may emit. */
  ghost predicate Servable(m: Backend, history: seq<Message>, req: Request, nCtx: int) {
    && 0 < req.nPredict <= INT_MAX - 8 && m.checkRequest(req)
    && exists asked: seq<Message>, prompt: seq<Token> ::
         Asks(m, history, req, asked) && m.render(req, asked) == Some(prompt) && HasPlace(m, req, prompt, nCtx)
  }

  ghost predicate HasPlace(m: Backend, req: Request, prompt: seq<Token>, nCtx: int) {
    && prompt != []
    && if req.reasoningBudget < 0 then |prompt| + req.nPredict + 8 <= nCtx
       else
         && m.budgetInit(req, prompt).Some?
         && var allowance := Int32(req.reasoningBudget + m.budgetInit(req, prompt).value.1);
            |prompt| + Int32(req.nPredict + allowance) + 8 <= nCtx
  }

  /** A request is rejected exactly when it cannot be served. */
  lemma RejectedExactly(m: Backend, cfg: SessionConfig, before: ChatState, req: Request, res: TurnResult,
                        after: ChatState)
    requires ServesTurn(m, cfg, before, req, res, after) && !before.sampler.Budget?
    ensures res.rejected <==> !Servable(m, if req.clearKv then [] else before.history, req, cfg.nCtx)
  {
    var history := if req.clearKv then [] else before.history;
    if !res.rejected {
      var plan := PlanTurn(m, AfterReset(m, before, req), req).value;
      assert Asks(m, history, req, plan.history) && HasPlace(m, req, plan.prompt, cfg.nCtx);
    }
    if Servable(m, history, req, cfg.nCtx) {
      var asked, prompt :| Asks(m, history, req, asked) && m.render(req, asked) == Some(prompt)
                           && HasPlace(m, req, prompt, cfg.nCtx);
      if req.messages == [] {
        assert asked == history + [Message("user", req.prompt)];
      }
    }
  }

  // ---- whole runs ----

  /** The turns that completed, of those from `from` on and before n. */
  ghost function Done(results: seq<TurnResult>, from: nat, n: nat): set<int>
    requires n <= |results|
  {
    set i | from <= i < n && results[i].Completed()
  }

  /** The prompt and the answer of a turn stand at place p. */
  ghost predicate StandAt(m: Backend, history: seq<Message>, p: int, req: Request, res: TurnResult) {
    && 0 <= p && p + 2 <= |history| && history[p] == Message("user", req.prompt)
    && history[p + 1] == Message("assistant", m.parse(req, res.emitted))
  }

  /** The transcript is what it started as, and then the prompt and the answer of every turn since `from` that
      completed, in order. */
  ghost predicate Continues(m: Backend, start: seq<Message>, history: seq<Message>, reqs: seq<Request>,
                            results: seq<TurnResult>, from: nat, n: nat)
    requires n <= |results| <= |reqs|
  {
    && start <= history && |history| == PlaceOf(start, results, from, n)
    && forall i: nat :: from <= i < n ==> Stands(m, start, history, reqs, results, from, i)
  }

  /** Where turn n goes: behind two messages for every turn that completed. */
  ghost function PlaceOf(start: seq<Message>, results: seq<TurnResult>, from: nat, n: nat): nat
    requires n <= |results|
  {
    |start| + 2 * |Done(results, from, n)|
  }

  ghost predicate Stands(m: Backend, start: seq<Message>, history: seq<Message>, reqs: seq<Request>,
                         results: seq<TurnResult>, from: nat, i: nat)
    requires i < |results| <= |reqs|
  {
    results[i].Completed() ==> StandAt(m, history, PlaceOf(start, results, from, i), reqs[i], results[i])
  }

  /** Any stretch of a run in which the turns ask one more prompt each continues the transcript so: the one before
      it, or none when the stretch opens with a new chat. */
  lemma RunTranscript(m: Backend, cfg: SessionConfig, states: seq<ChatState>, reqs: seq<Request>,
                      results: seq<TurnResult>, from: nat, n: nat)
    requires ServesRun(m, cfg, states, reqs, results) && from < n <= |reqs|
    requires forall i :: from <= i < n ==> reqs[i].messages == [] && 0 < reqs[i].nPredict <= INT_MAX - 8
    requires forall i :: from < i < n ==> !reqs[i].clearKv
    ensures Continues(m, if reqs[from].clearKv then [] else states[from].history, states[n].history, reqs, results,
                      from, n)
  {
    var start := if reqs[from].clearKv then [] else states[from].history;
    var history := start;
    for i := from to n
      invariant Continues(m, start, history, reqs, results, from, i)
      invariant history == if i == from then start else states[i].history
    {
      assert TurnAt(m, cfg, states, reqs, results, i);
      StepTranscript(m, cfg, states, reqs, results, i);
      OneMoreTurn(m, start, history, states[i + 1].history, reqs, results, from, i);
      history := states[i + 1].history;
    }
  }

  lemma StepTranscript(m: Backend, cfg: SessionConfig, states: seq<ChatState>, reqs: seq<Request>,
                       results: seq<TurnResult>, i: nat)
    requires i < |reqs| == |results| && |states| == |reqs| + 1 && TurnAt(m, cfg, states, reqs, results, i)
    requires reqs[i].messages == [] && 0 < reqs[i].nPredict <= INT_MAX - 8
    ensures Extended(m, if reqs[i].clearKv then [] else states[i].history, reqs[i], results[i], states[i + 1].history)
  {
    TurnTranscript(m, cfg, states[i], reqs[i], results[i], states[i + 1]);
  }

  /** The transcript after one turn that asks one more prompt. */
  ghost predicate Extended(m: Backend, before: seq<Message>, req: Request, res: TurnResult, after: seq<Message>) {
    after == if !res.Completed() then before
             else before + [Message("user", req.prompt), Message("assistant", m.parse(req, res.emitted))]
  }

  lemma OneMoreTurn(m: Backend, start: seq<Message>, before: seq<Message>, after: seq<Message>, reqs: seq<Request>,
                    results: seq<TurnResult>, from: nat, n: nat)
    requires from <= n < |results| <= |reqs| && Continues(m, start, before, reqs, results, from, n)
    requires Extended(m, before, reqs[n], results[n], after)
    ensures Continues(m, start, after, reqs, results, from, n + 1)
  {
    DoneGrows(results, from, n);
    forall i: nat | from <= i <= n
      ensures Stands(m, start, after, reqs, results, from, i)
    {
      if i < n { StandsStill(m, start, before, after, reqs, results, from, i); }
    }
  }

  lemma StandsStill(m: Backend, start: seq<Message>, before: seq<Message>, after: seq<Message>, reqs: seq<Request>,
                    results: seq<TurnResult>, from: nat, i: nat)
    requires i < |results| <= |reqs| && before <= after && Stands(m, start, before, reqs, results, from, i)
    ensures Stands(m, start, after, reqs, results, from, i)
  {
  }

  lemma DoneGrows(results: seq<TurnResult>, from: nat, n: nat)
    requires from <= n < |results|
    ensures |Done(results, from, n + 1)| == |Done(results, from, n)| + if results[n].Completed() then 1 else 0
  {
    if results[n].Completed() {
      assert Done(results, from, n + 1) == Done(results, from, n) + {n};
    } else {
      assert Done(results, from, n + 1) == Done(results, from, n);
    }
  }

  lemma TurnTranscript(m: Backend, cfg: SessionConfig, before: ChatState, req: Request, res: TurnResult,
                       after: ChatState)
    requires ServesTurn(m, cfg, before, req, res, after) && req.messages == [] && 0 < req.nPredict <= INT_MAX - 8
    ensures Extended(m, if req.clearKv then [] else before.history, req, res, after.history)
  {
    if res.Completed() {
      var history, sampler, asked, prompt := CompletedTurnAnswers(m, cfg, before, req, res, after);
    } else {
      UndoneTurnLeaves(m, cfg, before, req, res, after);
    }
  }
}
