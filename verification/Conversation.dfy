/** What a chat session owes its caller, told without a cache: the state that one turn leaves behind
    and the answer it gives, as a relation on the conversation alone. The session proves that it keeps
    this relation; the lemmas here say what a whole run that keeps it looks like. */
module Conversation {
  import opened Wrappers
  import opened Basics
  import opened Decoder
  import opened Config
  import NgramDraft

  /** The conversation between two turns: the transcript and the session's own sampler. */
  datatype ChatState = ChatState(history: seq<Message>, sampler: Sampler)

  datatype TurnResult = TurnResult(finish: Finish, rejected: bool, emitted: seq<Token>, tally: Tally) {
    predicate Completed() { finish == Stop || finish == Length }
  }

  const N_PREDICT_LIMIT := INT_MAX - 8

  predicate ValidLength(req: Request) { 0 < req.nPredict <= N_PREDICT_LIMIT }

  /** The state the turn is a transaction over: the reset of a new chat comes first and stays. */
  function AfterReset(m: Backend, before: ChatState, req: Request): ChatState {
    if ValidLength(req) && req.clearKv then ChatState([], ResetSampler(m, before.sampler)) else before
  }

  /** The transcript with the request in it: the caller's whole transcript, or one more user message. */
  function RequestedHistory(m: Backend, history: seq<Message>, req: Request): Option<seq<Message>> {
    if !m.checkRequest(req) then None
    else if req.messages != [] then m.renderMessages(req)
    else Some(history + [Message("user", req.prompt)])
  }

  function TurnSampler(m: Backend, sampler: Sampler, req: Request, prompt: seq<Token>): Option<Sampler> {
    if req.reasoningBudget >= 0 then
      match m.budgetInit(req, prompt)
      case None => None
      case Some((state, forced)) => Some(Budget(state, Int32(req.reasoningBudget + forced)))
    else if req.overrideSampling.Some? then Some(MakeSampler(req.overrideSampling.value))
    else Some(sampler)
  }

  predicate UsesSessionSampler(req: Request) { req.reasoningBudget < 0 && req.overrideSampling.None? }

  datatype Plan = Plan(history: seq<Message>, prompt: seq<Token>, sampler: Sampler)

  /** What a turn is about to answer, or None when the request cannot be served at all. */
  function PlanTurn(m: Backend, base: ChatState, req: Request): Option<Plan> {
    if !ValidLength(req) then None else
    match RequestedHistory(m, base.history, req)
    case None => None
    case Some(history) =>
      match m.render(req, history)
      case None => None
      case Some(prompt) =>
        match TurnSampler(m, base.sampler, req, prompt)
        case None => None
        case Some(sampler) => if prompt == [] then None else Some(Plan(history, prompt, sampler))
  }

  // ---- the capacity check ----

  /** The positions set aside for the output: a 32-bit sum. */
  function Reserve(s: Sampler, req: Request): int {
    Int32(req.nPredict + if s.Budget? then s.allowance else 0)
  }

  /** The capacity check of a turn, with the output reserve. */
  predicate Fits(plan: Plan, req: Request, nCtx: int) {
    |plan.prompt| + Reserve(plan.sampler, req) + 8 <= nCtx
  }

  /** What the check is for: the context holds the prompt and everything that the turn may emit. */
  predicate HasRoom(plan: Plan, req: Request, nCtx: int) {
    |plan.prompt| + req.nPredict + Allowance(plan.sampler) + 8 <= nCtx
  }

  /** The reserve is not the sum that it stands for. */
  predicate Overflows(s: Sampler, req: Request) {
    s.Budget? && (s.allowance < 0 || req.nPredict + s.allowance > INT_MAX)
  }

  /** The check never rejects a turn for which there is room, and it is sound, for every prompt and every
      context, exactly when the sum of the output allowance and the reasoning allowance, which is itself a
      sum, fits 32 bits. */
  lemma CheckIsSound(s: Sampler, req: Request)
    requires ValidLength(req) && (s.Budget? ==> -INT_MAX - 1 <= s.allowance <= INT_MAX)
    ensures forall plan: Plan, nCtx: int :: plan.sampler == s && nCtx <= INT_MAX ==>
              (HasRoom(plan, req, nCtx) ==> Fits(plan, req, nCtx))
    ensures !Overflows(s, req) <==>
            forall plan: Plan, nCtx: int :: plan.sampler == s && plan.prompt != [] && nCtx <= INT_MAX ==>
              (Fits(plan, req, nCtx) ==> HasRoom(plan, req, nCtx))
  {
    if Overflows(s, req) {
      var plan, nCtx := Plan([], [0], s), req.nPredict + 8;
      assert Fits(plan, req, nCtx) && !HasRoom(plan, req, nCtx);
    }
  }

  /** A request that passes the check and fills the context: the largest output allowance and a reasoning
      budget that makes the sum wrap, to a model that does not stop. The context, the prompt and what it is
      a continuation of can be anything. */
  lemma OverflowFillsContext(before: ChatState, prompt: seq<Token>, nCtx: int, budget: int)
    returns (m: Backend, req: Request, plan: Plan)
    requires prompt != [] && |prompt| < nCtx <= N_PREDICT_LIMIT && 8 <= budget < INT_MAX
    requires |prompt| + (N_PREDICT_LIMIT + budget + 1 - 2 * INT_MAX - 2) + 8 <= nCtx
    ensures ValidLength(req) && req.reasoningBudget == budget && !req.clearKv
    ensures PlanTurn(m, AfterReset(m, before, req), req) == Some(plan) && plan.prompt == prompt
    ensures Fits(plan, req, nCtx) && Overflows(plan.sampler, req) && !HasRoom(plan, req, nCtx)
    ensures Answer(m, plan, req, nCtx).finish == ContextFull
  {
    m := Endless(prompt);
    req := Request("", [], N_PREDICT_LIMIT, true, false, budget, None);
    plan := PlanTurn(m, AfterReset(m, before, req), req).value;
    var (tok, s) := Draw(m, plan.sampler, prompt);
    EndlessFillsContext(m, prompt, tok, s, Tally(0, 0), req.nPredict, nCtx);
  }

  /** Verification compares argmax with the draft. A request that overrides a speculating session with
      a sampling chain draws the tokens between the groups from that chain, so its answer can be neither
      what the chain would give alone nor what argmax would. With a single token to generate there is no
      room for a draft. Every request admitted here is answered exactly; any other need not be, for a draft
      that fits the room (`ExcludedCanDiverge`), and for the very draft that the n-gram source makes
      (`NgramCanDiverge`). */
  predicate AnswersExactly(spec: SpecConfig, req: Request) {
    || !spec.Enabled() || req.reasoningBudget >= 0 || req.nPredict <= 1
    || req.overrideSampling.None? || !req.overrideSampling.value.hot
  }

  /** The room for the first draft of a turn. */
  function FirstRoom(spec: SpecConfig, prompt: seq<Token>, req: Request, nCtx: int): int {
    Min(spec.draftMax, Min(req.nPredict - 1, nCtx - |prompt| - 2))
  }

  /** Every request that is not answered exactly, on every prompt that is admitted: a backend plans that
      prompt, and a draft within the room makes the first group differ from the stateless answer. */
  lemma ExcludedCanDiverge(cfg: SessionConfig, before: ChatState, req: Request, prompt: seq<Token>)
    returns (m: Backend, plan: Plan, draft: seq<Token>)
    requires Validate(cfg).None? && ValidLength(req) && prompt != [] && !AnswersExactly(cfg.spec, req)
    requires |prompt| + req.nPredict + 8 <= cfg.nCtx
    ensures PlanTurn(m, AfterReset(m, before, req), req) == Some(plan) && plan.prompt == prompt
    ensures Fits(plan, req, cfg.nCtx)
    ensures 1 <= |draft| <= FirstRoom(cfg.spec, prompt, req, cfg.nCtx)
    ensures var (tok, s) := Draw(m, plan.sampler, prompt);
            && !m.isEog(tok)
            && !([tok] + AcceptedText(m, prompt + [tok], draft) <= Answer(m, plan, req, cfg.nCtx).emitted)
  {
    m, draft := Split(prompt, 1), [1];
    plan := PlanTurn(m, AfterReset(m, before, req), req).value;
    SampledGroupDiverges(m, prompt, plan.sampler, 1, req.nPredict, cfg.nCtx);
  }

  /** The n-gram source needs a text in which it finds something: a prompt as long as its shortest match, of any
      length from there on. With a shorter one the first group has no draft (NgramDraft.DraftsNeedText). */
  lemma NgramCanDiverge(cfg: SessionConfig, before: ChatState, req: Request, n: nat)
    returns (m: Backend, plan: Plan, draft: seq<Token>)
    requires Validate(cfg).None? && ValidLength(req) && cfg.spec.source == Ngram && !AnswersExactly(cfg.spec, req)
    requires cfg.spec.ngramMinMatch <= n && n + req.nPredict + 8 <= cfg.nCtx
    ensures PlanTurn(m, AfterReset(m, before, req), req) == Some(plan) && |plan.prompt| == n
    ensures Fits(plan, req, cfg.nCtx)
    ensures var (tok, s) := Draw(m, plan.sampler, plan.prompt);
            && !m.isEog(tok)
            && NgramDraft.IsDraft(plan.prompt + [tok], FirstRoom(cfg.spec, plan.prompt, req, cfg.nCtx),
                                  cfg.spec.ngramMinMatch, cfg.spec.ngramMaxMatch, draft)
            && !([tok] + AcceptedText(m, plan.prompt + [tok], draft) <= Answer(m, plan, req, cfg.nCtx).emitted)
  {
    var prompt: seq<Token> := seq(n, _ => 2);
    m, draft := Split(prompt, 2), [2];
    plan := PlanTurn(m, AfterReset(m, before, req), req).value;
    NgramDraft.RepetitionDraftsItself(prompt + [2], 2, FirstRoom(cfg.spec, prompt, req, cfg.nCtx),
                                      cfg.spec.ngramMinMatch, cfg.spec.ngramMaxMatch);
    SampledGroupDiverges(m, prompt, plan.sampler, 2, req.nPredict, cfg.nCtx);
  }

  function Answer(m: Backend, plan: Plan, req: Request, nCtx: int): Generation
    requires ValidLength(req)
  {
    StatelessDecode(m, plan.prompt, plan.sampler, req.nPredict, nCtx)
  }

  /** One turn, as the conversation sees it. */
  ghost predicate ServesTurn(m: Backend, cfg: SessionConfig, before: ChatState, req: Request, res: TurnResult,
                             after: ChatState) {
    var base := AfterReset(m, before, req);
    var plan := PlanTurn(m, base, req);
    && (res.rejected <==> plan.None? || !Fits(plan.value, req, cfg.nCtx))
    && (plan.Some? && !Fits(plan.value, req, cfg.nCtx) ==> res.finish == ContextFull)
    && (res.finish == ContextFull ==> plan.Some? && !HasRoom(plan.value, req, cfg.nCtx))
    && (res.rejected ==> !res.Completed() && res.emitted == [])
    && (!res.Completed() ==> after == base)
    && (plan.Some? && !res.rejected ==>
          && res.tally.charged + res.tally.reasoning == |res.emitted|
          && res.tally.charged <= req.nPredict && res.tally.reasoning <= Allowance(plan.value.sampler)
          && (res.Completed() ==>
                && after.history == plan.value.history + [Message("assistant", m.parse(req, res.emitted))]
                && (!UsesSessionSampler(req) ==> after.sampler == base.sampler))
          && (AnswersExactly(cfg.spec, req) ==>
                var answer := Answer(m, plan.value, req, cfg.nCtx);
                && (res.Completed() || res.finish == ContextFull ==>
                      res.emitted == answer.emitted && res.finish == answer.finish && res.tally == answer.tally)
                && (res.Completed() && UsesSessionSampler(req) ==> after.sampler == answer.sampler)
                && (!res.Completed() ==> res.emitted <= answer.emitted)))
  }

  // ---- whole runs ----

  ghost predicate ServesRun(m: Backend, cfg: SessionConfig, states: seq<ChatState>, reqs: seq<Request>,
                            results: seq<TurnResult>) {
    && |states| == |reqs| + 1 && |results| == |reqs|
    && forall i {:trigger TurnAt(m, cfg, states, reqs, results, i)} :: 0 <= i < |reqs| ==>
         TurnAt(m, cfg, states, reqs, results, i)
  }

  ghost predicate TurnAt(m: Backend, cfg: SessionConfig, states: seq<ChatState>, reqs: seq<Request>,
                         results: seq<TurnResult>, i: nat)
    requires i < |reqs| && i < |results| && i + 1 < |states|
  {
    ServesTurn(m, cfg, states[i], reqs[i], results[i], states[i + 1])
  }

  lemma SameTurn(m: Backend, cfg: SessionConfig, states: seq<ChatState>, reqs: seq<Request>, results: seq<TurnResult>,
                 i: nat, states': seq<ChatState>, reqs': seq<Request>, results': seq<TurnResult>, j: nat)
    requires i < |reqs| && i < |results| && i + 1 < |states| && TurnAt(m, cfg, states, reqs, results, i)
    requires j < |reqs'| && j < |results'| && j + 1 < |states'|
    requires states'[j] == states[i] && reqs'[j] == reqs[i] && results'[j] == results[i]
    requires states'[j + 1] == states[i + 1]
    ensures TurnAt(m, cfg, states', reqs', results', j)
  {
  }

  /** An answer that is not cut does not depend on how large the context is. */
  lemma AnswerIgnoresCapacity(m: Backend, plan: Plan, req: Request, nCtx: int, nCtx': int)
    requires ValidLength(req)
    requires Answer(m, plan, req, nCtx).finish != ContextFull && Answer(m, plan, req, nCtx').finish != ContextFull
    ensures Answer(m, plan, req, nCtx) == Answer(m, plan, req, nCtx')
  {
    var (tok, s) := Draw(m, plan.sampler, plan.prompt);
    RoomDoesNotMatter(m, plan.prompt, tok, s, Tally(0, 0), req.nPredict, nCtx, nCtx');
  }

  /** Prefix reuse, speculation, the draft source, the kind of memory and the size of the context are
      invisible: two runs over the same requests in which the same turns complete go through the same
      conversation, and every completed turn gives the same answer for the same reason. */
  lemma {:induction false} EngineIsInvisible(m: Backend, cfgA: SessionConfig, cfgB: SessionConfig, reqs: seq<Request>,
                                             statesA: seq<ChatState>, resultsA: seq<TurnResult>,
                                             statesB: seq<ChatState>, resultsB: seq<TurnResult>, n: nat)
    requires ServesRun(m, cfgA, statesA, reqs, resultsA) && ServesRun(m, cfgB, statesB, reqs, resultsB)
    requires statesA[0] == statesB[0]
    requires forall i :: 0 <= i < |reqs| ==> AnswersExactly(cfgA.spec, reqs[i]) && AnswersExactly(cfgB.spec, reqs[i])
    requires forall i :: 0 <= i < |reqs| ==> (resultsA[i].Completed() <==> resultsB[i].Completed())
    requires n <= |reqs|
    ensures statesA[n] == statesB[n]
    ensures forall i :: 0 <= i < n && resultsA[i].Completed() ==> resultsA[i] == resultsB[i]
  {
    if n > 0 {
      EngineIsInvisible(m, cfgA, cfgB, reqs, statesA, resultsA, statesB, resultsB, n - 1);
      var i := n - 1;
      assert TurnAt(m, cfgA, statesA, reqs, resultsA, i) && TurnAt(m, cfgB, statesB, reqs, resultsB, i);
      TurnsAgree(m, cfgA, cfgB, statesA[i], reqs[i], resultsA[i], statesA[i + 1], resultsB[i], statesB[i + 1]);
    }
  }

  /** One turn that both sessions complete, or neither does. */
  lemma TurnsAgree(m: Backend, cfgA: SessionConfig, cfgB: SessionConfig, before: ChatState, req: Request,
                   resA: TurnResult, afterA: ChatState, resB: TurnResult, afterB: ChatState)
    requires ServesTurn(m, cfgA, before, req, resA, afterA) && ServesTurn(m, cfgB, before, req, resB, afterB)
    requires AnswersExactly(cfgA.spec, req) && AnswersExactly(cfgB.spec, req)
    requires resA.Completed() <==> resB.Completed()
    ensures afterA == afterB && (resA.Completed() ==> resA == resB)
  {
    if resA.Completed() {
      var plan := PlanTurn(m, AfterReset(m, before, req), req).value;
      AnswerIgnoresCapacity(m, plan, req, cfgA.nCtx, cfgB.nCtx);
    }
  }

  /** A turn that was cancelled, failed or rejected leaves no trace: without it, the rest of the run is
      the same run. (A request that starts a new chat resets the conversation even when it fails.) */
  lemma FailedTurnLeavesNoTrace(m: Backend, cfg: SessionConfig, states: seq<ChatState>, reqs: seq<Request>,
                                results: seq<TurnResult>, i: nat)
    requires ServesRun(m, cfg, states, reqs, results)
    requires i < |reqs| && !results[i].Completed() && !reqs[i].clearKv
    ensures ServesRun(m, cfg, states[..i] + states[i + 1..], reqs[..i] + reqs[i + 1..], results[..i] + results[i + 1..])
  {
    assert TurnAt(m, cfg, states, reqs, results, i);
    var st, rq, rs := states[..i] + states[i + 1..], reqs[..i] + reqs[i + 1..], results[..i] + results[i + 1..];
    UndoneIsSame(m, cfg, states[i], reqs[i], results[i], states[i + 1]);
    forall k | 0 <= k < |rq|
      ensures TurnAt(m, cfg, st, rq, rs, k)
    {
      var o := if k < i then k else k + 1;
      assert TurnAt(m, cfg, states, reqs, results, o);
      SameTurn(m, cfg, states, reqs, results, o, st, rq, rs, k);
    }
  }

  lemma UndoneIsSame(m: Backend, cfg: SessionConfig, before: ChatState, req: Request, res: TurnResult, after: ChatState)
    requires ServesTurn(m, cfg, before, req, res, after) && !res.Completed() && !req.clearKv
    ensures after == before
  {
  }

  /** Two runs in which nothing goes wrong and no prompt outgrows its context agree on every turn: on
      which are rejected, on every answer, and on the conversation. Nothing is assumed of which turns
      complete. */
  lemma {:induction false} FaultFreeRunsAgree(m: Backend, cfgA: SessionConfig, cfgB: SessionConfig, reqs: seq<Request>,
                                              statesA: seq<ChatState>, resultsA: seq<TurnResult>,
                                              statesB: seq<ChatState>, resultsB: seq<TurnResult>, n: nat)
    requires ServesRun(m, cfgA, statesA, reqs, resultsA) && ServesRun(m, cfgB, statesB, reqs, resultsB)
    requires statesA[0] == statesB[0] && n <= |reqs|
    requires forall i :: 0 <= i < |reqs| ==> AnswersExactly(cfgA.spec, reqs[i]) && AnswersExactly(cfgB.spec, reqs[i])
    requires FaultFree(resultsA) && FaultFree(resultsB)
    ensures statesA[n] == statesB[n]
    ensures forall i :: 0 <= i < n ==> resultsA[i].rejected == resultsB[i].rejected
    ensures forall i :: 0 <= i < n && !resultsA[i].rejected ==> resultsA[i] == resultsB[i]
  {
    if n > 0 {
      FaultFreeRunsAgree(m, cfgA, cfgB, reqs, statesA, resultsA, statesB, resultsB, n - 1);
      var i := n - 1;
      assert TurnAt(m, cfgA, statesA, reqs, resultsA, i) && TurnAt(m, cfgB, statesB, reqs, resultsB, i);
      FaultFreeTurnsAgree(m, cfgA, cfgB, statesA[i], reqs[i], resultsA[i], statesA[i + 1], resultsB[i], statesB[i + 1]);
    }
  }

  lemma FaultFreeTurnsAgree(m: Backend, cfgA: SessionConfig, cfgB: SessionConfig, before: ChatState, req: Request,
                            resA: TurnResult, afterA: ChatState, resB: TurnResult, afterB: ChatState)
    requires ServesTurn(m, cfgA, before, req, resA, afterA) && ServesTurn(m, cfgB, before, req, resB, afterB)
    requires AnswersExactly(cfgA.spec, req) && AnswersExactly(cfgB.spec, req)
    requires (resA.rejected || resA.Completed()) && resA.finish != ContextFull
    requires (resB.rejected || resB.Completed()) && resB.finish != ContextFull
    ensures afterA == afterB && resA.rejected == resB.rejected && (!resA.rejected ==> resA == resB)
  {
    TurnsAgree(m, cfgA, cfgB, before, req, resA, afterA, resB, afterB);
  }

  /** Every turn was rejected or completed, and none for want of room. */
  ghost predicate FaultFree(results: seq<TurnResult>) {
    forall res <- results :: (res.rejected || res.Completed()) && res.finish != ContextFull
  }

  // ---- rejected requests ----

  /** Whether rejecting a request leaves transcript, sampler and KV as they were. An invalid length is
      refused first of all. A clearing request resets the conversation before any other check. Any other
      request is refused before it changes anything, unless it can be rendered and is only too long: then
      the KV has already been cut to what it shares with the prompt. */
  predicate RejectionIsClean(m: Backend, before: ChatState, kv: seq<Token>, req: Request) {
    if !ValidLength(req) then true
    else if req.clearKv then before == AfterReset(m, before, req) && kv == []
    else
      match PlanTurn(m, before, req)
      case None => true
      case Some(plan) => kv <= plan.prompt[..|plan.prompt| - 1]
  }

  /** Rejection is not always clean: every KV that holds anything can be cut by a request that is rejected
      for capacity, and every transcript is wiped by a rejected request that asks for a new chat. */
  lemma RejectionCanChange(before: ChatState, kv: seq<Token>, nCtx: int)
    returns (m: Backend, long: Request, clearing: Request)
    requires kv != [] && 0 < nCtx <= N_PREDICT_LIMIT && !before.sampler.Budget?
    ensures !long.clearKv && PlanTurn(m, AfterReset(m, before, long), long).Some?
    ensures !Fits(PlanTurn(m, AfterReset(m, before, long), long).value, long, nCtx)
    ensures !RejectionIsClean(m, before, kv, long)
    ensures clearing.clearKv && PlanTurn(m, AfterReset(m, before, clearing), clearing).Some?
    ensures !Fits(PlanTurn(m, AfterReset(m, before, clearing), clearing).value, clearing, nCtx)
    ensures !RejectionIsClean(m, before, kv, clearing)
  {
    m := Split(kv, 1);
    long := Request("", [], nCtx, true, false, -1, None);
    clearing := long.(clearKv := true);
  }
}
