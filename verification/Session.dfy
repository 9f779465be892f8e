/** The generation engine: a session that answers chat turns from a live context, reusing the KV of
    earlier turns, speculating on the next tokens, and undoing a turn that does not complete. */
module Session {
  import opened Wrappers
  import opened Basics
  import opened Decoder
  import opened Config
  import opened KvMemory
  import opened Conversation
  import NgramDraft

  datatype StepOutcome = Advanced | StepCancelled | StepAborted

  /** How the decode loop ended: with a finish reason, or with a turn to undo. */
  datatype LoopExit = Finished(finish: Finish) | LoopCancelled | LoopAborted

  /** The tokens in the KV, and how many of them came before the last answer. */
  datatype Records = Records(kv: seq<Token>, generationStart: nat) {
    /** The start of the last answer lies beyond the tokens there are. */
    predicate Stale() { generationStart > |kv| }
  }

  /** The records after a truncation to `keep` tokens that was carried out, or was refused and cleared all. */
  function Truncated(r: Records, keep: nat, kept: bool): Records {
    if !kept then Records([], 0)
    else
      var kv := r.kv[..Min(keep, |r.kv|)];
      Records(kv, Min(r.generationStart, |kv|))
  }

  /** The records after a turn was undone that found `start` recorded when it began. */
  function Undone(r: Records, keep: nat, kept: bool, start: nat): Records {
    if kept then Truncated(r, keep, true).(generationStart := start) else Records([], 0)
  }

  /** Exactly when undoing a turn leaves the records stale: the KV has fewer tokens left than the start that
      is put back. */
  lemma StaleExactly(r: Records, keep: nat, kept: bool, start: nat)
    ensures Undone(r, keep, kept, start).Stale() <==> kept && start > Min(keep, |r.kv|)
  {
  }

  /** The records after a turn that shares nCommon tokens with the KV, is cancelled while it generates, and finds
      the trim after the decode loop refused, which clears everything. The rollback then has nothing to remove,
      which cannot be refused, and puts back the start as the prefix trim left it. */
  function AfterRefusedTrim(before: Records, prompt: seq<Token>, emitted: seq<Token>, nCommon: nat): Records {
    var shared := Truncated(before, nCommon, true);
    var decoded := Records(prompt + emitted, |prompt|);
    Undone(Truncated(decoded, |prompt| + |emitted|, false), nCommon, true, shared.generationStart)
  }

  /** Such a turn leaves the records stale whatever it decoded, exactly when something was generated before and
      is shared in part; the start that stands over the empty record is the old one, or the end of what is shared. */
  lemma RefusedTrimGoesStale(before: Records, prompt: seq<Token>, emitted: seq<Token>, nCommon: nat)
    requires nCommon <= |before.kv|
    ensures AfterRefusedTrim(before, prompt, emitted, nCommon).Stale() <==> before.generationStart > 0 && nCommon > 0
    ensures AfterRefusedTrim(before, prompt, emitted, nCommon) == Records([], Min(before.generationStart, nCommon))
  {
  }

  /** What was drafted, in how many steps, how much of it was confirmed, how many decodes that took, and how often
      the draft source was asked. */
  datatype Totals = Totals(drafted: nat, draftedSteps: nat, accepted: nat, decodes: nat, asked: nat) {
    /** The totals after one more decode, which verified what the source drafted if it was asked. */
    function After(asks: bool, draft: seq<Token>, nAcc: nat): Totals {
      Totals(drafted + |draft|, draftedSteps + if draft == [] then 0 else 1, accepted + nAcc, decodes + 1,
             asked + if asks then 1 else 0)
    }
  }

  /** Every token that is in the context by generation was drawn for one decode or drafted and confirmed; no more
      was confirmed than was drafted, and no more steps drafted than were asked to. */
  ghost predicate Accounts(from: Totals, to: Totals, generated: nat) {
    && generated == to.decodes - from.decodes + (to.accepted - from.accepted)
    && 0 <= to.accepted - from.accepted <= to.drafted - from.drafted
    && 0 <= to.draftedSteps - from.draftedSteps <= to.asked - from.asked <= to.decodes - from.decodes
    && to.draftedSteps - from.draftedSteps <= to.drafted - from.drafted
  }

  /** What a turn that ran to its end has added: an accepted end of generation is confirmed but not emitted. A turn
      that speculates asks its source before every decode but perhaps the last, which can have no room. */
  ghost predicate TurnAccounts(from: Totals, to: Totals, emitted: nat, finish: Finish, speculates: bool) {
    exists generated: nat ::
      && Accounts(from, to, generated)
      && (generated == emitted || (speculates && finish == Stop && generated == emitted + 1))
      && (if speculates then to.decodes - from.decodes <= to.asked - from.asked + 1 else to.asked == from.asked)
  }

  class Session {
    const m: Backend
    const cfg: SessionConfig
    const tgt: Memory
    /** The draft context of an MTP session; null for the other sources. */
    const dft: Memory?

    var chatHistory: seq<Message>
    /** The tokens decoded into the target's KV, in order. */
    var kvTokens: seq<Token>
    var kvLastGenerationStart: nat
    var smpl: Sampler
    var drafted: nat
    var draftedSteps: nat
    var accepted: nat
    var decodes: nat
    var turn: nat
    /** How often the draft source was asked for a continuation. */
    ghost var asked: nat

    /** What opening the session settles, once. */
    ghost predicate Opened() {
      && (dft != null <==> cfg.spec.source == Mtp)
      && dft != tgt
      && 1 <= cfg.nUbatch <= cfg.nBatch <= cfg.nCtx <= INT_MAX
      && tgt.Shape() && tgt.nCtx == cfg.nCtx && tgt.nBatch == cfg.nBatch && tgt.nUbatch == cfg.nUbatch
      && (dft != null ==> dft.Shape() && dft.nCtx == cfg.nCtx && dft.nBatch == cfg.nBatch && !dft.kind.Snapshots?)
      && (cfg.spec.Enabled() ==> 1 <= cfg.spec.draftMax && 1 + cfg.spec.draftMax <= cfg.nUbatch && !cfg.hot)
      && (tgt.kind.Snapshots? ==> cfg.spec.Enabled() && tgt.kind.depth == cfg.spec.draftMax)
    }

    /** The physical memories hold exactly the recorded tokens, and the draft context mirrors the
        target. */
    ghost predicate Coherent()
      reads this, tgt, dft
    {
      && tgt.cells == kvTokens
      && (dft != null ==> dft.cells == kvTokens)
      && (kvTokens != [] ==> kvLastGenerationStart <= |kvTokens|)
    }

    ghost predicate Valid()
      reads this, tgt, dft
    {
      && Opened() && Coherent()
      && !smpl.Budget? && (cfg.spec.Enabled() ==> smpl == Greedy)
    }

    /** What the session records of its KV. */
    function Recorded(): Records
      reads this`kvTokens, this`kvLastGenerationStart
    {
      Records(kvTokens, kvLastGenerationStart)
    }

    ghost function Counted(): Totals
      reads this`drafted, this`draftedSteps, this`accepted, this`decodes, this`asked
    {
      Totals(drafted, draftedSteps, accepted, decodes, asked)
    }

    function State(): ChatState
      reads this
    {
      ChatState(chatHistory, smpl)
    }

    /** What went wrong in the memories so far: failed decodes and refused removals. */
    ghost function Faults(): nat
      reads tgt, dft
    {
      tgt.faults + if dft == null then 0 else dft.faults
    }

    /** Open a session on a model whose memory, and whose draft head's memory, is recurrent or not. With a
        validated configuration the session satisfies its invariant. */
    constructor (m: Backend, input: SessionConfig, recurrent: bool, draftRecurrent: bool)
      requires CheckSession(input).None? && input.nCtx <= INT_MAX
      ensures Validate(input).None? ==> Valid()
      ensures Coherent() && fresh(tgt) && (dft != null ==> fresh(dft))
      ensures this.m == m && cfg == Capped(input)
      ensures (tgt.kind.Attention? <==> !recurrent) && (tgt.kind.Snapshots? ==> input.spec.Enabled())
      ensures recurrent && input.spec.Enabled() && Validate(input).None? ==>
                tgt.kind == Snapshots(input.spec.draftMax)
      ensures dft != null <==> input.spec.source == Mtp
      ensures dft != null ==> dft.kind == if draftRecurrent then Recurrent else Attention
      ensures State() == ChatState([], MakeSampler(Sampling(input.hot, input.seed))) && kvTokens == []
    {
      if Validate(input).None? { VerifyBatchFits(input); }
      var c := Capped(input);
      var target := TargetParams(c);
      var draft := DraftParams(target, c.spec);
      this.m, this.cfg := m, c;
      var kind := if !recurrent then Attention else if target.nRsSeq > 0 then Snapshots(target.nRsSeq) else Recurrent;
      this.tgt := new Memory(kind, target.nCtx, target.nBatch, target.nUbatch);
      if c.spec.source == Mtp {
        var d := new Memory(if draftRecurrent then Recurrent else Attention, draft.nCtx, draft.nBatch, draft.nUbatch);
        this.dft := d;
      } else {
        this.dft := null;
      }
      chatHistory, kvTokens, kvLastGenerationStart := [], [], 0;
      smpl := MakeSampler(Sampling(c.hot, c.seed));
      drafted, draftedSteps, accepted, decodes, turn, asked := 0, 0, 0, 0, 0, 0;
    }

    // ---- keeping the records and the memories together ----

    /** Keep the first keepPos positions and keepTokens records, or clear everything together. Only a
        removal inside the last decode may use recurrent-state snapshots. */
    method TruncateKv(keepPos: nat, keepTokens: nat, inLastDecode: bool) returns (kept: bool)
      requires Opened()
      modifies this`kvTokens, this`kvLastGenerationStart, tgt, dft
      ensures kept ==> |tgt.cells| == Min(keepPos, |old(tgt.cells)|)
      ensures kept && (!inLastDecode || |old(tgt.cells)| <= keepPos || old(tgt.Holds(keepPos))) ==>
                tgt.cells <= old(tgt.cells)
      ensures kept && |old(tgt.cells)| > keepPos ==> !tgt.kind.Recurrent? && (!inLastDecode ==> tgt.kind.Attention?)
      ensures kept && dft != null ==> dft.cells <= old(dft.cells) && |dft.cells| == Min(keepPos, |old(dft.cells)|)
      ensures Recorded() == Truncated(old(Recorded()), keepTokens, kept)
      ensures !kept ==> tgt.cells == [] && (dft != null ==> dft.cells == [])
      ensures |old(tgt.cells)| <= keepPos && (dft != null ==> |old(dft.cells)| <= keepPos) ==> kept
      ensures Faults() >= old(Faults())
      ensures !kept ==> Faults() > old(Faults()) || (!inLastDecode && tgt.kind.Snapshots?)
    {
      var hasTail := |tgt.cells| > keepPos;
      var snapshotUnsafe := hasTail && !inLastDecode && tgt.kind.Snapshots?;
      kept := false;
      if !snapshotUnsafe {
        kept := tgt.RemoveTail(keepPos);
      }
      if kept && dft != null {
        kept := dft.RemoveTail(keepPos);
      }
      if kept {
        kvTokens := kvTokens[..Min(keepTokens, |kvTokens|)];
        kvLastGenerationStart := Min(kvLastGenerationStart, |kvTokens|);
        return;
      }
      ClearMemories();
      kvTokens, kvLastGenerationStart := [], 0;
    }

    method ClearMemories()
      requires Opened()
      modifies tgt, dft
      ensures tgt.cells == [] && (dft != null ==> dft.cells == [])
      ensures Faults() == old(Faults())
    {
      tgt.Clear();
      if dft != null { dft.Clear(); }
    }

    method ResetConversation()
      requires Valid()
      modifies this`chatHistory, this`kvTokens, this`kvLastGenerationStart, this`smpl, tgt, dft
      ensures Valid() && Recorded() == Records([], 0) && Faults() == old(Faults())
      ensures State() == ChatState([], ResetSampler(m, old(smpl)))
    {
      ClearMemories();
      chatHistory, kvTokens, kvLastGenerationStart := [], [], 0;
      smpl := ResetSampler(m, smpl);
    }

    // ---- the speculative step ----

    /** What a turn that speculates drafts where there is room: no more than that and the limit, and without a
        head exactly what the text suggests. */
    ghost predicate IsProposal(text: seq<Token>, room: int, specOn: bool, draft: seq<Token>) {
      if !specOn || room <= 0 then draft == []
      else
        && |draft| <= room && |draft| <= cfg.spec.draftMax
        && (dft == null ==> NgramDraft.IsDraft(text, Min(cfg.spec.draftMax, room), cfg.spec.ngramMinMatch,
                                               cfg.spec.ngramMaxMatch, draft))
    }

    /** Ask the draft source for a continuation of `tok` that keeps to `room` tokens. The head writes
        into the draft context while it drafts, and is rewound to where the draft started. */
    method DraftTokens(corpus: seq<Token>, tok: Token, nPast: nat, room: nat) returns (ok: bool, draft: seq<Token>)
      requires Opened() && cfg.spec.Enabled() && room > 0
      requires dft != null ==> |dft.cells| == nPast
      modifies this`asked, this`drafted, this`draftedSteps, dft
      ensures IsProposal(corpus + [tok], room, true, draft)
      ensures ok && dft != null ==> dft.cells == old(dft.cells)
      ensures !ok ==> dft != null && old(dft.cells) <= dft.cells
      ensures drafted == old(drafted) + if ok then |draft| else 0
      ensures draftedSteps == old(draftedSteps) + if ok && draft != [] then 1 else 0
      ensures asked == old(asked) + 1
      ensures if ok then Faults() == old(Faults()) else Faults() > old(Faults())
    {
      asked := asked + 1;
      if dft != null {
        var guesses: seq<Token>, proposal: seq<Token> := *, *;
        dft.ScribbleGuesses(guesses);
        // the driver was created for draftMax tokens; the result is cut to the room
        draft := if |proposal| <= cfg.spec.draftMax then proposal else proposal[..cfg.spec.draftMax];
        if |draft| > room { draft := draft[..room]; }
        ok := dft.RemoveTail(nPast);
        if !ok { return; }
      } else {
        var n;
        n, draft := NgramDraft.Draft(corpus, tok, Min(cfg.spec.draftMax, room), cfg.spec.ngramMinMatch,
                                     cfg.spec.ngramMaxMatch);
        ok := true;
      }
      drafted := drafted + |draft|;
      if |draft| > 0 { draftedSteps := draftedSteps + 1; }
    }

    /** The accepted prefix: each draft is confirmed only while it is what the target produced. */
    method AcceptDrafts(ghost decoded: seq<Token>, tok: Token, draft: seq<Token>)
      returns (nAcc: nat, eogHit: bool, confirmed: seq<Token>)
      requires draft == [] || (tgt.rowStart + 1 == |decoded| && tgt.rows == decoded + draft)
      ensures nAcc == AcceptCount(m, decoded, draft)
      ensures eogHit == HitsEog(m, decoded, draft)
      ensures confirmed == [tok] + AcceptedText(m, decoded, draft)
    {
      confirmed, nAcc, eogHit := [tok], 0, false;
      for i := 0 to |draft|
        invariant nAcc == i && !eogHit
        invariant forall k :: 0 <= k < i ==> draft[k] == m.next(decoded + draft[..k]) && !m.isEog(draft[k])
        invariant confirmed == [tok] + draft[..i]
        invariant i == |draft| && i > 0 ==>
                    AcceptCount(m, decoded, draft) == i && AcceptedText(m, decoded, draft) == draft
      {
        AcceptStep(m, decoded, draft, i);
        assert tgt.Row(i) == decoded + draft[..i];
        var want := m.next(tgt.Row(i));
        if want != draft[i] { break; }
        nAcc := nAcc + 1;
        if m.isEog(want) {
          eogHit := true;
          break;
        }
        assert draft[..i + 1] == draft[..i] + [want];
        confirmed := confirmed + [want];
      }
      if draft == [] { assert confirmed == [tok] + AcceptedText(m, decoded, draft); }
    }

    /** Catch the draft context up on the accepted prefix only. */
    method CatchUp(nPast: nat, tok: Token, draft: seq<Token>, nAcc: nat) returns (ok: bool)
      requires Opened() && dft != null && |dft.cells| == nPast
      requires nAcc <= |draft| < cfg.nUbatch && nPast + 1 + |draft| < cfg.nCtx
      modifies dft
      ensures old(dft.cells) <= dft.cells
      ensures ok ==> dft.cells == old(dft.cells) + [tok] + draft[..nAcc]
      ensures if ok then Faults() == old(Faults()) else Faults() > old(Faults())
    {
      var prefix := [tok] + draft[..nAcc];
      ok := dft.Decode(nPast, prefix);
      assert old(dft.cells) + prefix == old(dft.cells) + [tok] + draft[..nAcc];
    }

    /** Drop the rejected tail from the target. All of it was decoded by the last decode, one ubatch
        wide, so a memory with snapshots holds the state it goes back to. */
    method DropRejected(nPast: nat, ghost decoded: seq<Token>, draft: seq<Token>, nAcc: nat) returns (ok: bool)
      requires Opened() && nAcc <= |draft| <= cfg.spec.draftMax
      requires |decoded| == nPast + 1 && tgt.cells == decoded + draft
      requires tgt.lastStart == nPast && tgt.lastEnd == |tgt.cells|
      modifies tgt`cells, tgt`faults
      ensures decoded + draft[..nAcc] <= tgt.cells <= decoded + draft
      ensures ok ==> tgt.cells == decoded + draft[..nAcc]
      ensures if ok then Faults() == old(Faults()) else Faults() > old(Faults())
    {
      ok := true;
      assert (decoded + draft)[..nPast + 1 + nAcc] == decoded + draft[..nAcc];
      if nAcc < |draft| {
        assert tgt.kind.Recurrent? || tgt.Holds(nPast + 1 + nAcc);
        ok := tgt.RemoveTail(nPast + 1 + nAcc);
      } else {
        assert draft[..nAcc] == draft;
      }
    }

    /** Decode the confirmed token with its drafts, accept, catch the draft context up on the accepted
        prefix, and drop the rejected tail from the target. */
    method VerifyStep(nPast: nat, tok: Token, draft: seq<Token>, specOn: bool)
      returns (outcome: StepOutcome, nAcc: nat, eogHit: bool, confirmed: seq<Token>)
      requires Opened() && |tgt.cells| == nPast && (dft != null ==> dft.cells == tgt.cells)
      requires nPast + 1 + |draft| < cfg.nCtx
      requires specOn ==> cfg.spec.Enabled() && |draft| <= cfg.spec.draftMax
      requires !specOn ==> draft == []
      modifies this`accepted, this`decodes, tgt, dft
      ensures old(tgt.cells) <= tgt.cells && (dft != null ==> old(tgt.cells) <= dft.cells)
      ensures old(accepted) <= accepted <= old(accepted) + |draft|
      ensures if outcome == Advanced then Faults() == old(Faults()) else Faults() > old(Faults())
      ensures outcome == Advanced ==>
                var decoded := old(tgt.cells) + [tok];
                && nAcc == AcceptCount(m, decoded, draft) && eogHit == HitsEog(m, decoded, draft)
                && confirmed == [tok] + AcceptedText(m, decoded, draft)
                && tgt.cells == decoded + draft[..nAcc]
                && (dft != null ==> dft.cells == tgt.cells)
                && tgt.rowStart == nPast && tgt.cells <= tgt.rows
                && (eogHit ==> tgt.kind.Recurrent? || tgt.Holds(nPast + nAcc))
                && decodes == old(decodes) + 1 && accepted == old(accepted) + if specOn then nAcc else 0
    {
      nAcc, eogHit, confirmed := 0, false, [];
      ghost var decoded := tgt.cells + [tok];
      var step := [tok] + draft;
      assert tgt.cells + step == decoded + draft;
      SmallBatchIsOneUbatch(|step|, cfg.nUbatch);
      var ok := tgt.Decode(nPast, step);
      if !ok {
        var cancelRequested: bool := *;
        outcome := if cancelRequested then StepCancelled else StepAborted;
        return;
      }
      if !specOn && dft != null {
        ok := dft.Decode(nPast, step);
        if !ok { return StepAborted, nAcc, eogHit, confirmed; }
      }
      decodes := decodes + 1;
      nAcc, eogHit, confirmed := AcceptDrafts(decoded, tok, draft);
      if specOn {
        accepted := accepted + nAcc;
        if dft != null {
          ok := CatchUp(nPast, tok, draft, nAcc);
          if !ok { return StepAborted, nAcc, eogHit, confirmed; }
        }
        ok := DropRejected(nPast, decoded, draft, nAcc);
        if !ok { return StepAborted, nAcc, eogHit, confirmed; }
      }
      outcome := Advanced;
    }

    /** Emit one group. Every token is recorded and charged; the loop bound never cuts a group short,
        because the draft was kept to the room that was left. */
    method Emit(confirmed: seq<Token>, emitted0: seq<Token>, corpus0: seq<Token>, s0: Sampler, tally0: Tally,
                nPredict: nat, specOn: bool)
      returns (emitted: seq<Token>, corpus: seq<Token>, s: Sampler, tally: Tally)
      requires confirmed != [] && tally0.charged < nPredict && tally0.reasoning <= Allowance(s0)
      requires if s0.Budget? then |confirmed| == 1 else tally0.charged + |confirmed| <= nPredict
      modifies this`kvTokens
      ensures emitted == emitted0 + confirmed && kvTokens == old(kvTokens) + confirmed
      ensures corpus == if specOn then corpus0 + confirmed else corpus0
      ensures |confirmed| == 1 ==>
                var (inSpan, s1) := Accept(m, s0, confirmed[0]);
                s == s1 && tally == Charge(tally0, inSpan, Allowance(s0))
      ensures !s0.Budget? ==> s == s0 && tally == tally0.(charged := tally0.charged + |confirmed|)
    {
      emitted, corpus, s, tally := emitted0, corpus0, s0, tally0;
      var e := 0;
      while e < |confirmed| && tally.charged < nPredict
        invariant 0 <= e <= |confirmed|
        invariant emitted == emitted0 + confirmed[..e] && kvTokens == old(kvTokens) + confirmed[..e]
        invariant corpus == if specOn then corpus0 + confirmed[..e] else corpus0
        invariant e == 0 ==> s == s0 && tally == tally0
        invariant e == 1 ==>
                    var (inSpan, s1) := Accept(m, s0, confirmed[0]);
                    s == s1 && tally == Charge(tally0, inSpan, Allowance(s0))
        invariant !s0.Budget? ==> s == s0 && tally == tally0.(charged := tally0.charged + e)
      {
        var out := confirmed[e];
        assert confirmed[..e + 1] == confirmed[..e] + [out];
        emitted := emitted + [out];
        var (inSpan, s1) := Accept(m, s, out);
        tally, s := Charge(tally, inSpan, Allowance(s)), s1;
        kvTokens := kvTokens + [out];
        if specOn { corpus := corpus + [out]; }
        e := e + 1;
      }
      assert confirmed[..|confirmed|] == confirmed;
    }

    /** Draft what the room allows, if this turn speculates. */
    method Propose(corpus: seq<Token>, tok: Token, nPast: nat, room: int, specOn: bool)
      returns (ok: bool, draft: seq<Token>)
      requires Opened() && (specOn ==> cfg.spec.Enabled())
      requires dft != null ==> |dft.cells| == nPast
      modifies this`asked, this`drafted, this`draftedSteps, dft
      ensures ok ==> IsProposal(corpus + [tok], room, specOn, draft)
      ensures ok && dft != null ==> dft.cells == old(dft.cells)
      ensures !ok && dft != null ==> old(dft.cells) <= dft.cells
      ensures drafted == old(drafted) + if ok then |draft| else 0
      ensures draftedSteps == old(draftedSteps) + if ok && draft != [] then 1 else 0
      ensures asked == old(asked) + if specOn && room > 0 then 1 else 0
      ensures if ok then Faults() == old(Faults()) else Faults() > old(Faults())
    {
      ok, draft := true, [];
      if specOn && room > 0 {
        ok, draft := DraftTokens(corpus, tok, nPast, room);
      }
    }

    /** Where the context stands after a group: at the end of what was emitted, with its logits in row
        nAcc, or one token past it when the group ran into the end of generation. */
    ghost predicate Settled(text: seq<Token>, nPast: nat, nAcc: nat, eogHit: bool)
      reads tgt, dft
    {
      && text <= tgt.cells && (dft != null ==> dft.cells == tgt.cells) && |tgt.cells| == nPast + 1 + nAcc
      && (if eogHit then |tgt.cells| == |text| + 1 && (tgt.kind.Recurrent? || tgt.Holds(|text|))
          else tgt.cells == text && tgt.rowStart + nAcc + 1 <= |tgt.rows| && tgt.Row(nAcc) == text)
    }

    /** Draft what the room allows, and verify it. */
    method Speculate(nPast: nat, tok: Token, corpus: seq<Token>, room: int, specOn: bool)
      returns (outcome: StepOutcome, nAcc: nat, eogHit: bool, group: seq<Token>, ghost draft: seq<Token>)
      requires Opened() && |tgt.cells| == nPast && (dft != null ==> dft.cells == tgt.cells)
      requires nPast + 1 < cfg.nCtx && room <= cfg.nCtx - nPast - 2 && (specOn ==> cfg.spec.Enabled())
      modifies this`asked, this`drafted, this`draftedSteps, this`accepted, this`decodes, tgt, dft
      ensures old(tgt.cells) <= tgt.cells && (dft != null ==> old(tgt.cells) <= dft.cells)
      ensures outcome == Advanced ==>
                && IsProposal(corpus + [tok], room, specOn, draft)
                && Counted() == old(Counted()).After(specOn && room > 0, draft, nAcc) && nAcc <= |draft|
                && group == [tok] + AcceptedText(m, old(tgt.cells) + [tok], draft)
                && eogHit == HitsEog(m, old(tgt.cells) + [tok], draft)
                && Settled(old(tgt.cells) + group, nPast, nAcc, eogHit)
      ensures drafted - old(drafted) >= accepted - old(accepted) >= 0
      ensures if outcome == Advanced then Faults() == old(Faults()) else Faults() > old(Faults())
    {
      var drafting, proposal := Propose(corpus, tok, nPast, room, specOn);
      draft := proposal;
      if !drafting { return StepAborted, 0, false, [], draft; }
      outcome, nAcc, eogHit, group := VerifyStep(nPast, tok, proposal, specOn);
      SettledGroup(old(tgt.cells), tok, proposal);
    }

    /** There is room for one more token only, in the allowance or in the context. */
    predicate IsLast(nPast: int, charged: int, nPredict: int) {
      charged + 1 >= nPredict || nPast + 2 >= cfg.nCtx
    }

    /** One pass of the decode loop behind its two exit checks: draft, verify, emit. */
    method Step(nPast: nat, tok: Token, emitted0: seq<Token>, corpus0: seq<Token>, s0: Sampler, tally0: Tally,
                nPredict: nat, specOn: bool)
      returns (outcome: StepOutcome, nAcc: nat, eogHit: bool, emitted: seq<Token>, corpus: seq<Token>, s: Sampler,
               tally: Tally, ghost draft: seq<Token>, ghost confirmed: seq<Token>)
      requires Opened() && |kvTokens| == nPast && nPast + 1 < cfg.nCtx
      requires tgt.cells == kvTokens && (dft != null ==> dft.cells == kvTokens)
      requires tally0.charged < nPredict && tally0.reasoning <= Allowance(s0)
      requires specOn ==> cfg.spec.Enabled() && !s0.Budget?
      modifies this`kvTokens, this`asked, this`drafted, this`draftedSteps, this`accepted, this`decodes, tgt, dft
      ensures kvTokens <= tgt.cells && (dft != null ==> kvTokens <= dft.cells)
      ensures outcome != Advanced ==> kvTokens == old(kvTokens) && emitted == emitted0 && s == s0 && tally == tally0
      ensures outcome == Advanced ==>
                && IsProposal(corpus0 + [tok], Min(nPredict - tally0.charged - 1, cfg.nCtx - nPast - 2), specOn,
                              draft)
                && Counted() == old(Counted()).After(specOn && !IsLast(nPast, tally0.charged, nPredict), draft, nAcc)
                && nAcc <= |draft|
                && confirmed == [tok] + AcceptedText(m, old(kvTokens) + [tok], draft)
                && eogHit == HitsEog(m, old(kvTokens) + [tok], draft)
                && emitted == emitted0 + confirmed && kvTokens == old(kvTokens) + confirmed
                && (specOn ==> corpus == corpus0 + confirmed)
                && (if specOn
                    then && s == s0 && tally == tally0.(charged := tally0.charged + |confirmed|)
                         && tally.charged <= nPredict
                    else s == Accept(m, s0, tok).1 && tally == Charge(tally0, Accept(m, s0, tok).0, Allowance(s0)))
                && Settled(kvTokens, nPast, nAcc, eogHit)
      ensures drafted - old(drafted) >= accepted - old(accepted) >= 0
      ensures if outcome == Advanced then Faults() == old(Faults()) else Faults() > old(Faults())
    {
      emitted, corpus, s, tally, nAcc, eogHit, confirmed := emitted0, corpus0, s0, tally0, 0, false, [];
      var room := Min(nPredict - tally.charged - 1, cfg.nCtx - nPast - 2);
      var group;
      outcome, nAcc, eogHit, group, draft := Speculate(nPast, tok, corpus, room, specOn);
      if outcome != Advanced { return; }
      confirmed := group;
      emitted, corpus, s, tally := Emit(group, emitted, corpus, s, tally, nPredict, specOn);
    }

    /** Where a verified group leaves the target: at the end of the emitted text, or one token past it
        when the last accepted token ends the generation. */
    lemma SettledGroup(before: seq<Token>, tok: Token, draft: seq<Token>)
      ensures var decoded := before + [tok];
              var nAcc := AcceptCount(m, decoded, draft);
              var confirmed := [tok] + AcceptedText(m, decoded, draft);
              && before + confirmed <= decoded + draft[..nAcc]
              && |before + confirmed| == |before| + 1 + nAcc - (if HitsEog(m, decoded, draft) then 1 else 0)
              && (!HitsEog(m, decoded, draft) ==> before + confirmed == decoded + draft[..nAcc])
    {
      var text := AcceptedText(m, before + [tok], draft);
      assert before + ([tok] + text) == before + [tok] + text;
      assert text == draft[..|text|];
    }

    /** The decode loop on its way: every emitted token is charged, and what the loop has emitted,
        followed by what a one-token loop would still emit, is the stateless answer. */
    ghost predicate Underway(prompt: seq<Token>, emitted: seq<Token>, tok: Token, s: Sampler, tally: Tally, s0: Sampler,
                             nPredict: nat, specOn: bool) {
      && Allowance(s) == Allowance(s0) && (s.Budget? <==> s0.Budget?) && (s.Greedy? <==> s0.Greedy?)
      && tally.charged + tally.reasoning == |emitted| && tally.charged <= nPredict && tally.reasoning <= Allowance(s0)
      && ((specOn ==> s0.Greedy? || nPredict == 1) ==>
            StatelessDecode(m, prompt, s0, nPredict, cfg.nCtx)
            == Prepend(emitted, OneTokenLoop(m, prompt + emitted, tok, s, tally, nPredict, cfg.nCtx)))
    }

    /** The decode loop at its end, whatever ended it. */
    ghost predicate Ended(prompt: seq<Token>, emitted: seq<Token>, exit: LoopExit, s: Sampler, tally: Tally,
                          s0: Sampler, nPredict: nat, specOn: bool) {
      && (s.Budget? <==> s0.Budget?) && (s.Greedy? <==> s0.Greedy?)
      && tally.charged + tally.reasoning == |emitted| && tally.charged <= nPredict && tally.reasoning <= Allowance(s0)
      && (exit.Finished? ==> exit.finish in {Stop, Length, ContextFull})
      && (exit == Finished(ContextFull) ==> |prompt| + nPredict + Allowance(s0) + 1 >= cfg.nCtx)
      && ((specOn ==> s0.Greedy? || nPredict == 1) ==>
            var answer := StatelessDecode(m, prompt, s0, nPredict, cfg.nCtx);
            && emitted <= answer.emitted
            && (exit.Finished? ==> answer == Generation(emitted, exit.finish, s, tally)))
    }

    lemma EndsHere(prompt: seq<Token>, emitted: seq<Token>, tok: Token, s: Sampler, tally: Tally, s0: Sampler,
                   nPredict: nat, specOn: bool, exit: LoopExit)
      requires Underway(prompt, emitted, tok, s, tally, s0, nPredict, specOn)
      requires exit.Finished? ==>
                 exit.finish == if tally.charged == nPredict then Length else if m.isEog(tok) then Stop else ContextFull
      requires exit == Finished(ContextFull) ==> |prompt| + |emitted| + 1 >= cfg.nCtx
      ensures Ended(prompt, emitted, exit, s, tally, s0, nPredict, specOn)
    {
    }

    /** Where the memories stand when the loop is left: at the recorded tokens, and if it was not interrupted, at
        most one accepted end of generation past them, which the last decode can still give back. */
    ghost predicate StandsAfter(prompt: seq<Token>, emitted: seq<Token>, exit: LoopExit, specOn: bool)
      reads this`kvTokens, tgt, dft
    {
      && kvTokens == prompt + emitted && kvTokens <= tgt.cells && (dft != null ==> kvTokens <= dft.cells)
      && (exit.Finished? ==>
            && |tgt.cells| <= |kvTokens| + 1 && (dft != null ==> dft.cells == tgt.cells)
            && (tgt.cells == kvTokens
                || (specOn && exit.finish == Stop && (tgt.kind.Recurrent? || tgt.Holds(|kvTokens|)))))
    }

    /** Where the memories stand at the head of the loop. */
    ghost predicate StandsAt(prompt: seq<Token>, emitted: seq<Token>, corpus: seq<Token>, specOn: bool)
      reads this`kvTokens, tgt, dft
    {
      && kvTokens == prompt + emitted && tgt.cells == kvTokens && (dft != null ==> dft.cells == kvTokens)
      && (specOn ==> corpus == kvTokens)
    }

    /** The source was asked before every decode, but perhaps before one that came to the end. */
    ghost predicate AsksAll(from: Totals, to: Totals, specOn: bool, nPast: int, charged: int, nPredict: int) {
      if !specOn then to.asked == from.asked
      else
        || to.decodes - from.decodes == to.asked - from.asked
        || (to.decodes - from.decodes == to.asked - from.asked + 1 && (charged >= nPredict || nPast + 1 >= cfg.nCtx))
    }

    /** One pass of the decode loop, with its two exit checks. */
    method Pass(prompt: seq<Token>, emitted0: seq<Token>, corpus0: seq<Token>, tok0: Token, s1: Sampler, tally0: Tally,
                ghost s0: Sampler, nPredict: nat, specOn: bool)
      returns (exit: Option<LoopExit>, emitted: seq<Token>, corpus: seq<Token>, tok: Token, s: Sampler, tally: Tally)
      requires Opened() && prompt != [] && tally0.charged < nPredict && StandsAt(prompt, emitted0, corpus0, specOn)
      requires specOn ==> cfg.spec.Enabled() && !s0.Budget?
      requires Underway(prompt, emitted0, tok0, s1, tally0, s0, nPredict, specOn)
      modifies this`kvTokens, this`asked, this`drafted, this`draftedSteps, this`accepted, this`decodes, tgt, dft
      ensures exit.Some? ==>
                StandsAfter(prompt, emitted, exit.value, specOn)
                && Ended(prompt, emitted, exit.value, s, tally, s0, nPredict, specOn)
      ensures exit.None? ==>
                StandsAt(prompt, emitted, corpus, specOn)
                && Underway(prompt, emitted, tok, s, tally, s0, nPredict, specOn)
                && tally.charged + tally.reasoning > tally0.charged + tally0.reasoning
      ensures exit.None? || exit.value.Finished? ==>
                |prompt| + |emitted0| <= |tgt.cells|
                && Accounts(old(Counted()), Counted(), |tgt.cells| - |prompt| - |emitted0|)
                && AsksAll(old(Counted()), Counted(), specOn, |prompt| + |emitted|, tally.charged, nPredict)
                && (|prompt| + |emitted0| + 1 >= cfg.nCtx ==> Counted() == old(Counted()))
      ensures if exit.None? || exit.value.Finished? then Faults() == old(Faults()) else Faults() > old(Faults())
    {
      emitted, corpus, tok, s, tally := emitted0, corpus0, tok0, s1, tally0;
      var nPast := |prompt| + |emitted|;
      if m.isEog(tok) || nPast + 1 >= cfg.nCtx {
        exit := Some(Finished(if m.isEog(tok) then Stop else ContextFull));
        EndsHere(prompt, emitted, tok, s, tally, s0, nPredict, specOn, exit.value);
        return;
      }
      var outcome, nAcc, eogHit;
      ghost var draft, confirmed;
      outcome, nAcc, eogHit, emitted, corpus, s, tally, draft, confirmed :=
        Step(nPast, tok, emitted, corpus, s, tally, nPredict, specOn);
      if outcome != Advanced {
        exit := Some(if outcome == StepCancelled then LoopCancelled else LoopAborted);
        EndsHere(prompt, emitted, tok, s, tally, s0, nPredict, specOn, exit.value);
        return;
      }
      Regroup(prompt, emitted0, confirmed);
      GroupUnderway(prompt + emitted0, prompt, emitted0, tok, s1, tally0, s0, nPredict, draft, confirmed, specOn,
                    eogHit, s, tally);
      if eogHit {
        exit := Some(Finished(Stop));
        return;
      }
      exit := None;
      var drawn := Draw(m, s, tgt.Row(nAcc));
      tok, s := drawn.0, drawn.1;
    }

    /** The decode loop, from a prompt that is in the context. */
    method DecodeLoop(prompt: seq<Token>, s0: Sampler, nPredict: nat, specOn: bool)
      returns (exit: LoopExit, emitted: seq<Token>, s: Sampler, tally: Tally)
      requires Opened() && prompt != [] && nPredict > 0
      requires tgt.cells == prompt && tgt.rows == prompt && kvTokens == prompt && (dft != null ==> dft.cells == prompt)
      requires specOn ==> cfg.spec.Enabled() && !s0.Budget?
      modifies this`kvTokens, this`asked, this`drafted, this`draftedSteps, this`accepted, this`decodes, tgt, dft
      ensures StandsAfter(prompt, emitted, exit, specOn)
      ensures Ended(prompt, emitted, exit, s, tally, s0, nPredict, specOn)
      ensures if exit.Finished? then Faults() == old(Faults()) else Faults() > old(Faults())
      ensures exit.Finished? ==> TurnAccounts(old(Counted()), Counted(), |emitted|, exit.finish, specOn)
    {
      var corpus := if specOn then prompt else [];
      emitted, tally := [], Tally(0, 0);
      assert prompt + emitted == prompt;
      var tok;
      var drawn := Draw(m, s0, tgt.rows);
      tok, s := drawn.0, drawn.1;
      while tally.charged < nPredict
        invariant StandsAt(prompt, emitted, corpus, specOn) && Faults() == old(Faults())
        invariant Underway(prompt, emitted, tok, s, tally, s0, nPredict, specOn)
        invariant Accounts(old(Counted()), Counted(), |emitted|)
        invariant AsksAll(old(Counted()), Counted(), specOn, |prompt| + |emitted|, tally.charged, nPredict)
        decreases nPredict - tally.charged + Allowance(s0) - tally.reasoning
      {
        var left;
        left, emitted, corpus, tok, s, tally := Pass(prompt, emitted, corpus, tok, s, tally, s0, nPredict, specOn);
        if left.Some? {
          exit := left.value;
          assert exit.Finished? ==> Accounts(old(Counted()), Counted(), |tgt.cells| - |prompt|);
          return;
        }
      }
      exit := Finished(Length);
      EndsHere(prompt, emitted, tok, s, tally, s0, nPredict, specOn, exit);
    }

    /** Where a pass of the loop leads: to its end, or to the next token to decode. */
    ghost predicate GoesOn(prompt: seq<Token>, emitted: seq<Token>, s: Sampler, tally: Tally, s0: Sampler,
                           nPredict: nat,
                           specOn: bool, eogHit: bool) {
      if eogHit then Ended(prompt, emitted, Finished(Stop), s, tally, s0, nPredict, specOn)
      else
        var (tok, s') := Draw(m, s, prompt + emitted);
        Underway(prompt, emitted, tok, s', tally, s0, nPredict, specOn)
    }

    /** One pass of the loop keeps it on its way, or ends it. */
    lemma GroupUnderway(before: seq<Token>, prompt: seq<Token>, emitted: seq<Token>, tok: Token, s: Sampler,
                        tally: Tally,
                        s0: Sampler, nPredict: nat, draft: seq<Token>, confirmed: seq<Token>, specOn: bool,
                        eogHit: bool,
                        s1: Sampler, tally1: Tally)
      requires Underway(prompt, emitted, tok, s, tally, s0, nPredict, specOn)
      requires before == prompt + emitted && |before| + 1 < cfg.nCtx && tally.charged < nPredict && !m.isEog(tok)
      requires draft == [] || (specOn && |draft| <= nPredict - tally.charged - 1 && |draft| <= cfg.nCtx - |before| - 2)
      requires confirmed == [tok] + AcceptedText(m, before + [tok], draft)
      requires eogHit == HitsEog(m, before + [tok], draft)
      requires if specOn
               then && s1 == s && !s.Budget? && tally1 == tally.(charged := tally.charged + |confirmed|)
                    && tally1.charged <= nPredict
               else s1 == Accept(m, s, tok).1 && tally1 == Charge(tally, Accept(m, s, tok).0, Allowance(s))
      ensures GoesOn(prompt, emitted + confirmed, s1, tally1, s0, nPredict, specOn, eogHit)
      ensures tally1.charged + tally1.reasoning > tally.charged + tally.reasoning
    {
      if draft == [] {
        // nothing is drafted without speculation, or when a single token is left to generate
        EmptyDraft(before + [tok], draft);
        assert confirmed == [tok] && !eogHit;
        TokenGoesOn(before, prompt, emitted, tok, s, tally, s0, nPredict, confirmed, specOn, s1, tally1);
      } else if s0.Greedy? {
        GroupGoesOn(before, prompt, emitted, tok, s, tally, s0, nPredict, draft, confirmed, eogHit);
      } else {
        InexactGoesOn(prompt, emitted, tok, s, tally, s0, nPredict, confirmed, eogHit);
      }
    }

    lemma EmptyDraft(decoded: seq<Token>, draft: seq<Token>)
      requires draft == []
      ensures AcceptedText(m, decoded, draft) == [] && !HitsEog(m, decoded, draft)
    {
    }

    lemma InexactGoesOn(prompt: seq<Token>, emitted: seq<Token>, tok: Token, s: Sampler, tally: Tally, s0: Sampler,
                        nPredict: nat,
                        confirmed: seq<Token>, eogHit: bool)
      requires Underway(prompt, emitted, tok, s, tally, s0, nPredict, true) && !s0.Greedy? && nPredict > 1
      requires tally.charged + |confirmed| <= nPredict
      ensures GoesOn(prompt, emitted + confirmed, s, tally.(charged := tally.charged + |confirmed|), s0, nPredict,
                     true, eogHit)
    {
    }

    lemma TokenGoesOn(before: seq<Token>, prompt: seq<Token>, emitted: seq<Token>, tok: Token, s: Sampler, tally: Tally,
                      s0: Sampler, nPredict: nat, confirmed: seq<Token>, specOn: bool, s1: Sampler, tally1: Tally)
      requires Underway(prompt, emitted, tok, s, tally, s0, nPredict, specOn) && confirmed == [tok]
      requires before == prompt + emitted && |before| + 1 < cfg.nCtx && tally.charged < nPredict && !m.isEog(tok)
      requires s1 == Accept(m, s, tok).1 && tally1 == Charge(tally, Accept(m, s, tok).0, Allowance(s))
      ensures GoesOn(prompt, emitted + confirmed, s1, tally1, s0, nPredict, specOn, false)
    {
      TokenRefines(before, prompt, emitted, tok, s, tally, nPredict);
    }

    lemma GroupGoesOn(before: seq<Token>, prompt: seq<Token>, emitted: seq<Token>, tok: Token, s: Sampler, tally: Tally,
                      s0: Sampler, nPredict: nat, draft: seq<Token>, confirmed: seq<Token>, eogHit: bool)
      requires Underway(prompt, emitted, tok, s, tally, s0, nPredict, true) && s0.Greedy?
      requires before == prompt + emitted && |before| + 1 < cfg.nCtx && tally.charged < nPredict && !m.isEog(tok)
      requires |draft| <= nPredict - tally.charged - 1 && |draft| <= cfg.nCtx - |before| - 2
      requires confirmed == [tok] + AcceptedText(m, before + [tok], draft)
      requires eogHit == HitsEog(m, before + [tok], draft)
      ensures GoesOn(prompt, emitted + confirmed, s, tally.(charged := tally.charged + |confirmed|), s0, nPredict,
                     true, eogHit)
    {
      GroupRefines(before, prompt, emitted, tok, tally, nPredict, draft, confirmed);
    }

    /** A speculated group, on the answer that the loop is on the way to. */
    lemma GroupRefines(before: seq<Token>, prompt: seq<Token>, emitted: seq<Token>, tok: Token, tally: Tally,
                       nPredict: nat,
                       draft: seq<Token>, confirmed: seq<Token>)
      requires before == prompt + emitted && |before| + 1 < cfg.nCtx
      requires tally.charged < nPredict && tally.reasoning == 0 && !m.isEog(tok)
      requires draft == [] || (|draft| <= nPredict - tally.charged - 1 && |draft| <= cfg.nCtx - |before| - 2)
      requires confirmed == [tok] + AcceptedText(m, before + [tok], draft)
      ensures var tally' := tally.(charged := tally.charged + |confirmed|);
              var after := prompt + (emitted + confirmed);
              && tally'.charged <= nPredict
              && Prepend(emitted, OneTokenLoop(m, before, tok, Greedy, tally, nPredict, cfg.nCtx))
                 == if HitsEog(m, before + [tok], draft) then Generation(emitted + confirmed, Stop, Greedy, tally')
                    else Prepend(emitted + confirmed,
                                 OneTokenLoop(m, after, m.next(after), Greedy, tally', nPredict, cfg.nCtx))
    {
      var after := before + confirmed;
      Regroup(prompt, emitted, confirmed);
      GroupIsSteps(m, before, tok, tally, nPredict, cfg.nCtx, draft);
      var tally' := tally.(charged := tally.charged + |confirmed|);
      PrependAssoc(emitted, confirmed, OneTokenLoop(m, after, m.next(after), Greedy, tally', nPredict, cfg.nCtx));
    }

    /** A single token, on the answer that the loop is on the way to. */
    lemma TokenRefines(before: seq<Token>, prompt: seq<Token>, emitted: seq<Token>, tok: Token, s: Sampler,
                       tally: Tally, nPredict: nat)
      requires before == prompt + emitted && |before| + 1 < cfg.nCtx
      requires tally.charged < nPredict && tally.reasoning <= Allowance(s) && !m.isEog(tok)
      ensures var (inSpan, s1) := Accept(m, s, tok);
              var after := prompt + (emitted + [tok]);
              var (tok', s2) := Draw(m, s1, after);
              Prepend(emitted, OneTokenLoop(m, before, tok, s, tally, nPredict, cfg.nCtx))
              == Prepend(emitted + [tok],
                         OneTokenLoop(m, after, tok', s2, Charge(tally, inSpan, Allowance(s)), nPredict, cfg.nCtx))
    {
      var (inSpan, s1) := Accept(m, s, tok);
      var after := before + [tok];
      Regroup(prompt, emitted, [tok]);
      var (tok', s2) := Draw(m, s1, after);
      PrependAssoc(emitted, [tok],
                   OneTokenLoop(m, after, tok', s2, Charge(tally, inSpan, Allowance(s)), nPredict, cfg.nCtx));
    }

    // ---- a turn ----

    /** The first n tokens are shared, and no more are, or no more may be: one token is left to decode. */
    ghost predicate LongestReuse(kv: seq<Token>, tokens: seq<Token>, n: nat) {
      && n <= |kv| && n < |tokens| && kv[..n] == tokens[..n]
      && (n == |kv| || n == |tokens| - 1 || kv[n] != tokens[n])
    }

    /** Reuse the longest prefix of the prompt that the KV holds, and drop the divergent tail; when a
        memory cannot, the whole prompt is prefilled again. */
    method ReusePrefix(tokens: seq<Token>) returns (nCommon: nat)
      requires Opened() && Coherent() && tokens != []
      modifies this`kvTokens, this`kvLastGenerationStart, tgt, dft
      ensures Coherent() && nCommon < |tokens| && kvTokens == tokens[..nCommon] && kvTokens <= old(kvTokens)
      ensures kvTokens == old(kvTokens) <==> old(kvTokens) <= tokens[..|tokens| - 1]
      ensures Recorded().Stale() ==> old(Recorded().Stale())
      ensures kvLastGenerationStart <= old(kvLastGenerationStart)
      ensures LongestReuse(old(kvTokens), tokens, nCommon)
              || (nCommon == 0 && (Faults() > old(Faults()) || tgt.kind.Snapshots?))
      ensures Faults() >= old(Faults())
    {
      nCommon := 0;
      ghost var kv := kvTokens;
      if kvTokens != [] {
        var maxCommon := |tokens| - 1;
        while nCommon < |kvTokens| && nCommon < maxCommon && kvTokens[nCommon] == tokens[nCommon]
          invariant nCommon <= |kvTokens| && nCommon <= maxCommon
          invariant kvTokens[..nCommon] == tokens[..nCommon]
        {
          nCommon := nCommon + 1;
        }
        if nCommon < |kv| && nCommon < maxCommon {
          assert !(kv <= tokens[..maxCommon]) by {
            assert kv[nCommon] != tokens[..maxCommon][nCommon];
          }
        }
        if nCommon < |kvTokens| || dft != null {
          var kept := TruncateKv(nCommon, nCommon, false);
          if !kept { nCommon := 0; }
        }
      }
    }

    /** Prefill the rest of the prompt in chunks of nBatch; positions continue from the kept prefix. */
    method Prefill(tokens: seq<Token>, nCommon: nat) returns (outcome: StepOutcome)
      requires Opened() && Coherent() && nCommon < |tokens| && kvTokens == tokens[..nCommon]
      modifies this`kvTokens, this`kvLastGenerationStart, tgt, dft
      ensures outcome == Advanced ==>
                && kvTokens == tokens && tgt.cells == tokens && tgt.rows == tokens
                && (dft != null ==> dft.cells == tokens)
                && kvLastGenerationStart == |tokens|
      ensures outcome != Advanced ==>
                && kvTokens == old(kvTokens) && kvLastGenerationStart == old(kvLastGenerationStart)
                && kvTokens <= tgt.cells && (dft != null ==> kvTokens <= dft.cells)
      ensures if outcome == Advanced then Faults() == old(Faults()) else Faults() > old(Faults())
    {
      var i := nCommon;
      while i < |tokens|
        invariant nCommon <= i <= |tokens|
        invariant tgt.cells == tokens[..i] && (dft != null ==> dft.cells == tokens[..i])
        invariant i > nCommon ==> tgt.rows == tokens[..i]
        invariant Faults() == old(Faults())
        invariant kvTokens == old(kvTokens) && kvLastGenerationStart == old(kvLastGenerationStart)
      {
        var chunk := Min(cfg.nBatch, |tokens| - i);
        assert tokens[..i] + tokens[i..i + chunk] == tokens[..i + chunk];
        assert kvTokens <= tokens[..i];
        var ok := tgt.Decode(i, tokens[i..i + chunk]);
        if !ok {
          var cancelRequested: bool := *;
          outcome := if cancelRequested then StepCancelled else StepAborted;
          return;
        }
        if dft != null {
          ok := dft.Decode(i, tokens[i..i + chunk]);
          if !ok { return StepAborted; }
        }
        i := i + chunk;
      }
      assert tokens[..i] == tokens;
      kvTokens := tokens;
      kvLastGenerationStart := |kvTokens|;
      outcome := Advanced;
    }

    /** What a turn that is being undone may have left: the kept prefix is still at the front, or a
        memory that refuses this removal anyway holds something past it, or all is already cleared. */
    ghost predicate CanUndoTo(prefix: seq<Token>)
      reads this, tgt, dft
    {
      || (tgt.cells == [] && kvTokens == [] && (dft != null ==> dft.cells == []))
      || (&& prefix <= kvTokens
          && (prefix <= tgt.cells || (tgt.kind.Snapshots? && |tgt.cells| > |prefix|))
          && (dft != null ==> prefix <= dft.cells))
    }

    /** Undo the turn: the KV added since the kept prefix, the records, the transcript, the sampler. The
        start of the last generation is put back as it was, whatever has become of the tokens. */
    method RollbackTurn(ghost prefix: seq<Token>, nCommon: nat, generationStart: nat, prior: ChatState)
      returns (kept: bool)
      requires Opened() && CanUndoTo(prefix) && |prefix| == nCommon && (nCommon > 0 ==> generationStart <= nCommon)
      requires !prior.sampler.Budget? && (cfg.spec.Enabled() ==> prior.sampler == Greedy)
      modifies this`kvTokens, this`kvLastGenerationStart, this`chatHistory, this`smpl, tgt, dft
      ensures Valid() && State() == prior
      ensures kvTokens == [] || kvTokens == prefix
      ensures kvTokens == prefix || Faults() > old(Faults()) || tgt.kind.Snapshots? || old(kvTokens) == []
      ensures Faults() >= old(Faults())
      ensures Recorded() == Undone(old(Recorded()), nCommon, kept, generationStart)
      ensures old(kvTokens) == [] && old(tgt.cells) == [] && (dft != null ==> old(dft.cells) == []) ==> kept
    {
      kept := TruncateKv(nCommon, nCommon, false);
      if kept { kvLastGenerationStart := generationStart; }
      chatHistory, smpl := prior.history, prior.sampler;
    }

    /** Put the request into the transcript and render it. Nothing but the transcript changes, and a
        request that cannot be rendered, budgeted or tokenized leaves it as it was. */
    method Prepare(req: Request) returns (ok: bool, prompt: seq<Token>, active: Sampler)
      requires ValidLength(req)
      modifies this`chatHistory
      ensures var plan := PlanTurn(m, old(State()), req);
              && ok == plan.Some?
              && (ok ==> plan.value == Plan(chatHistory, prompt, active))
              && (!ok ==> chatHistory == old(chatHistory))
    {
      prompt, active, ok := [], Greedy, false;
      if !m.checkRequest(req) { return; }
      var prior := chatHistory;
      if req.messages != [] {
        var rendered := m.renderMessages(req);
        if rendered.None? { return; }
        chatHistory := rendered.value;
      } else {
        chatHistory := chatHistory + [Message("user", req.prompt)];
      }
      var text := m.render(req, chatHistory);
      if text.None? {
        chatHistory := prior;
        return;
      }
      if req.reasoningBudget >= 0 {
        var budget := m.budgetInit(req, text.value);
        if budget.None? {
          chatHistory := prior;
          return;
        }
        active := Budget(budget.value.0, Int32(req.reasoningBudget + budget.value.1));
      } else if req.overrideSampling.Some? {
        active := MakeSampler(req.overrideSampling.value);
      } else {
        active := smpl;
      }
      prompt := text.value;
      if prompt == [] {
        chatHistory := prior;
        return;
      }
      ok := true;
    }

    /** Generate from a decoded prompt, and trim the physical end back to what was emitted: an accepted
        end of generation is decoded but never emitted. */
    method Respond(prompt: seq<Token>, nCommon: nat, active: Sampler, nPredict: nat)
      returns (exit: LoopExit, emitted: seq<Token>, s: Sampler, tally: Tally)
      requires Opened() && Coherent() && nCommon < |prompt| && nPredict > 0
      requires kvTokens == prompt && tgt.rows == prompt
      modifies this`kvTokens, this`kvLastGenerationStart, this`drafted, this`draftedSteps, this`accepted
      modifies this`decodes, this`asked, tgt, dft
      ensures exit.Finished? ==>
                Coherent() && (kvTokens == prompt + emitted || (kvTokens == [] && Faults() > old(Faults())))
      ensures Faults() >= old(Faults()) && (!exit.Finished? ==> Faults() > old(Faults()))
      ensures !exit.Finished? ==> CanUndoTo(prompt[..nCommon])
      ensures !exit.Finished? ==>
                prompt[..nCommon] <= kvTokens || (exit == LoopCancelled && cfg.spec.Enabled() && kvTokens == [])
      ensures exit.Finished? ==> !Recorded().Stale()
      ensures tally.charged + tally.reasoning == |emitted| && tally.charged <= nPredict
      ensures tally.reasoning <= Allowance(active)
      ensures exit.Finished? ==> exit.finish in {Stop, Length, ContextFull}
      ensures exit == Finished(ContextFull) ==> |prompt| + nPredict + Allowance(active) + 1 >= cfg.nCtx
      ensures (s.Budget? <==> active.Budget?) && (s.Greedy? <==> active.Greedy?)
      ensures Exact(active, nPredict) ==>
                var answer := StatelessDecode(m, prompt, active, nPredict, cfg.nCtx);
                && emitted <= answer.emitted
                && (exit.Finished? ==> answer == Generation(emitted, exit.finish, s, tally))
      ensures exit.Finished? ==>
                TurnAccounts(old(Counted()), Counted(), |emitted|, exit.finish, cfg.spec.Enabled() && !active.Budget?)
    {
      var specOn := cfg.spec.Enabled() && !active.Budget?;
      exit, emitted, s, tally := DecodeLoop(prompt, active, nPredict, specOn);
      ghost var recorded := kvTokens;
      assert prompt[..nCommon] <= prompt <= recorded;
      if exit == LoopAborted { return; }
      if specOn {
        assert |prompt| + |emitted| == |recorded| && recorded[..|recorded|] == recorded;
        var kept := TruncateKv(|prompt| + |emitted|, |kvTokens|, true);
      }
    }

    /** Prefill the rest of the prompt and generate from it. */
    method PrefillAndRespond(prompt: seq<Token>, nCommon: nat, active: Sampler, nPredict: nat)
      returns (exit: LoopExit, emitted: seq<Token>, s: Sampler, tally: Tally)
      requires Opened() && Coherent() && nCommon < |prompt| && nPredict > 0 && kvTokens == prompt[..nCommon]
      modifies this`kvTokens, this`kvLastGenerationStart, this`drafted, this`draftedSteps, this`accepted
      modifies this`decodes, this`asked, tgt, dft
      ensures exit.Finished? ==>
                Coherent() && (kvTokens == prompt + emitted || (kvTokens == [] && Faults() > old(Faults())))
      ensures Faults() >= old(Faults()) && (!exit.Finished? ==> Faults() > old(Faults()))
      ensures !exit.Finished? ==> CanUndoTo(prompt[..nCommon])
      ensures !exit.Finished? ==>
                prompt[..nCommon] <= kvTokens || (exit == LoopCancelled && cfg.spec.Enabled() && kvTokens == [])
      ensures exit.Finished? ==> !Recorded().Stale()
      ensures tally.charged + tally.reasoning == |emitted| && tally.charged <= nPredict
      ensures tally.reasoning <= Allowance(active)
      ensures exit.Finished? ==> exit.finish in {Stop, Length, ContextFull}
      ensures exit == Finished(ContextFull) ==> |prompt| + nPredict + Allowance(active) + 1 >= cfg.nCtx
      ensures exit.Finished? ==> (s.Budget? <==> active.Budget?) && (s.Greedy? <==> active.Greedy?)
      ensures Exact(active, nPredict) ==>
                var answer := StatelessDecode(m, prompt, active, nPredict, cfg.nCtx);
                && emitted <= answer.emitted
                && (exit.Finished? ==> answer == Generation(emitted, exit.finish, s, tally))
      ensures exit.Finished? ==>
                TurnAccounts(old(Counted()), Counted(), |emitted|, exit.finish, cfg.spec.Enabled() && !active.Budget?)
    {
      var outcome := Prefill(prompt, nCommon);
      if outcome != Advanced {
        return if outcome == StepCancelled then LoopCancelled else LoopAborted, [], active, Tally(0, 0);
      }
      exit, emitted, s, tally := Respond(prompt, nCommon, active, nPredict);
    }

    /** Undo a turn that filled the context: nothing of the KV survives. */
    method AbandonTurn(prior: ChatState)
      requires Opened() && !prior.sampler.Budget? && (cfg.spec.Enabled() ==> prior.sampler == Greedy)
      modifies this`kvTokens, this`kvLastGenerationStart, this`chatHistory, this`smpl, tgt, dft
      ensures Valid() && State() == prior && Recorded() == Records([], 0) && Faults() == old(Faults())
    {
      ClearMemories();
      kvTokens, kvLastGenerationStart := [], 0;
      chatHistory, smpl := prior.history, prior.sampler;
    }

    /** Undo a turn that did not complete, for whatever reason. */
    method UndoTurn(exit: LoopExit, ghost prefix: seq<Token>, nCommon: nat, generationStart: nat, prior: ChatState)
      requires Opened() && (exit != Finished(ContextFull) ==> CanUndoTo(prefix))
      requires |prefix| == nCommon && (nCommon > 0 ==> generationStart <= nCommon)
      requires !prior.sampler.Budget? && (cfg.spec.Enabled() ==> prior.sampler == Greedy)
      modifies this`kvTokens, this`kvLastGenerationStart, this`chatHistory, this`smpl, tgt, dft
      ensures Valid() && State() == prior && Faults() >= old(Faults())
      ensures kvTokens == [] || kvTokens == prefix
      ensures exit == Finished(ContextFull) ==> kvLastGenerationStart == 0
      ensures kvLastGenerationStart == 0 || kvLastGenerationStart == generationStart
      ensures Recorded().Stale() ==> kvTokens == [] && generationStart > Min(nCommon, |old(kvTokens)|)
    {
      if exit == Finished(ContextFull) {
        AbandonTurn(prior);
      } else {
        ghost var undone := Recorded();
        var kept := RollbackTurn(prefix, nCommon, generationStart, prior);
        StaleExactly(undone, nCommon, kept, generationStart);
      }
    }

    /** Put the answer into the transcript. */
    method CommitTurn(req: Request, emitted: seq<Token>, s: Sampler)
      modifies this`chatHistory, this`smpl, this`turn
      ensures turn == old(turn) + 1
      ensures chatHistory == old(chatHistory) + [Message("assistant", m.parse(req, emitted))]
      ensures smpl == if UsesSessionSampler(req) then s else old(smpl)
    {
      if UsesSessionSampler(req) { smpl := s; }
      chatHistory := chatHistory + [Message("assistant", m.parse(req, emitted))];
      turn := turn + 1;
    }

    /** Prefill and generate, then commit the turn or undo it. */
    method RunTurn(req: Request, prompt: seq<Token>, active: Sampler, nCommon: nat, prior: ChatState)
      returns (res: TurnResult)
      requires Valid() && nCommon < |prompt| && kvTokens == prompt[..nCommon] && ValidLength(req)
      requires smpl == prior.sampler && (UsesSessionSampler(req) ==> active == prior.sampler)
      modifies this, tgt, dft
      ensures Valid()
      ensures TurnRan(req, prompt, active, prior, old(chatHistory), res, State())
      ensures res.Completed() ==> kvTokens == prompt + res.emitted || (kvTokens == [] && Faults() > old(Faults()))
      ensures !res.Completed() ==> kvTokens == [] || kvTokens == old(kvTokens)
      ensures res.finish == Error || res.finish == Cancelled ==> Faults() > old(Faults())
      ensures Faults() >= old(Faults()) && turn == old(turn) + if res.Completed() then 1 else 0
      ensures StalesOnCancel(old(Recorded()), Recorded(), res)
      ensures res.Completed() || res.finish == ContextFull ==>
                TurnAccounts(old(Counted()), Counted(), |res.emitted|, res.finish,
                             cfg.spec.Enabled() && !active.Budget?)
      ensures !res.Completed() ==> kvLastGenerationStart == 0 || kvLastGenerationStart == old(kvLastGenerationStart)
    {
      ghost var prefix := kvTokens;
      var generationStart := kvLastGenerationStart;
      var exit, emitted, s, tally := PrefillAndRespond(prompt, nCommon, active, req.nPredict);
      res := TurnResult(FinishOf(exit), false, emitted, tally);
      if res.Completed() {
        CommitTurn(req, emitted, s);
      } else {
        UndoTurn(exit, prefix, nCommon, generationStart, prior);
      }
    }

    function FinishOf(exit: LoopExit): Finish {
      match exit
      case Finished(finish) => finish
      case LoopCancelled => Cancelled
      case LoopAborted => Error
    }

    /** What is drawn for the turn is what a stateless decoder would draw: verification compares with argmax,
        so it must be greedy, or there must be no room for a draft. */
    ghost predicate Exact(active: Sampler, nPredict: nat) {
      cfg.spec.Enabled() && !active.Budget? ==> active.Greedy? || nPredict == 1
    }

    /** An admitted turn, as the conversation sees it: `history` is the transcript with the request in it. */
    ghost predicate TurnRan(req: Request, prompt: seq<Token>, active: Sampler, prior: ChatState, history: seq<Message>,
                            res: TurnResult, after: ChatState)
      requires ValidLength(req)
    {
      && !res.rejected
      && res.tally.charged + res.tally.reasoning == |res.emitted|
      && res.tally.charged <= req.nPredict && res.tally.reasoning <= Allowance(active)
      && (res.finish == ContextFull ==> |prompt| + req.nPredict + Allowance(active) + 1 >= cfg.nCtx)
      && (!res.Completed() ==> after == prior)
      && (res.Completed() ==>
            && after.history == history + [Message("assistant", m.parse(req, res.emitted))]
            && (!UsesSessionSampler(req) ==> after.sampler == prior.sampler))
      && (Exact(active, req.nPredict) ==>
            var answer := StatelessDecode(m, prompt, active, req.nPredict, cfg.nCtx);
            && res.emitted <= answer.emitted
            && (res.Completed() || res.finish == ContextFull ==>
                  res.emitted == answer.emitted && res.finish == answer.finish && res.tally == answer.tally)
            && (res.Completed() && UsesSessionSampler(req) ==> after.sampler == answer.sampler))
    }

    /** Only a speculating turn that is cancelled makes the records stale; the next one that completes makes them
        good again. */
    ghost predicate StalesOnCancel(before: Records, after: Records, res: TurnResult) {
      && (after.Stale() ==> before.Stale() || (res.finish == Cancelled && cfg.spec.Enabled()))
      && (after.Stale() ==> after.kv == [] && !res.Completed() && (res.finish != ContextFull || res.rejected))
    }

    /** And only one that continues a conversation in which something was generated, which can be told before
        the call; the start that stands over the empty record is not past the old one. */
    ghost predicate GoesStale(before: Records, after: Records, req: Request, res: TurnResult) {
      && StalesOnCancel(before, after, res)
      && (after.Stale() && !before.Stale() ==>
            !req.clearKv && before.kv != [] && 0 < after.generationStart <= before.generationStart)
    }

    /** A planned turn draws from its own sampler, or from the session's. */
    lemma PlannedSampler(base: ChatState, req: Request)
      requires PlanTurn(m, base, req).Some? && (cfg.spec.Enabled() ==> base.sampler == Greedy)
      ensures var active := PlanTurn(m, base, req).value.sampler;
              && (UsesSessionSampler(req) ==> active == base.sampler)
              && (AnswersExactly(cfg.spec, req) ==> Exact(active, req.nPredict))
    {
    }

    /** A turn that ran as planned serves the request. */
    lemma RanServes(before: ChatState, req: Request, plan: Plan, res: TurnResult, after: ChatState)
      requires ValidLength(req) && (cfg.spec.Enabled() ==> AfterReset(m, before, req).sampler == Greedy)
      requires PlanTurn(m, AfterReset(m, before, req), req) == Some(plan) && Fits(plan, req, cfg.nCtx)
      requires TurnRan(req, plan.prompt, plan.sampler, AfterReset(m, before, req), plan.history, res, after)
      ensures ServesTurn(m, cfg, before, req, res, after)
    {
      PlannedSampler(AfterReset(m, before, req), req);
    }

    /** So does a rejection. */
    lemma RejectedServes(before: ChatState, req: Request, res: TurnResult)
      requires cfg.nCtx <= INT_MAX && !before.sampler.Budget?
      requires var plan := PlanTurn(m, AfterReset(m, before, req), req);
               && (plan.Some? ==> !Fits(plan.value, req, cfg.nCtx))
               && res == TurnResult(if plan.Some? then ContextFull else Error, true, [], Tally(0, 0))
      ensures ServesTurn(m, cfg, before, req, res, AfterReset(m, before, req))
    {
      var plan := PlanTurn(m, AfterReset(m, before, req), req);
      if plan.Some? { CheckIsSound(plan.value.sampler, req); }
    }

    /** Everything a request goes through before the turn starts. A rejected one is told why. */
    method Admit(req: Request)
      returns (ok: bool, finish: Finish, prompt: seq<Token>, active: Sampler, nCommon: nat, prior: ChatState)
      requires Valid()
      modifies this`chatHistory, this`kvTokens, this`kvLastGenerationStart, this`smpl, tgt, dft
      ensures Valid() && prior == AfterReset(m, old(State()), req) && smpl == prior.sampler
      ensures Faults() >= old(Faults()) && kvTokens <= old(kvTokens)
      ensures var plan := PlanTurn(m, prior, req);
              && (ok <==> plan.Some? && Fits(plan.value, req, cfg.nCtx))
              && finish == (if plan.Some? then ContextFull else Error)
              && (ok ==> plan == Some(Plan(chatHistory, prompt, active)))
      ensures ok ==> ValidLength(req) && nCommon < |prompt| && kvTokens == prompt[..nCommon]
      ensures !ok ==> State() == prior
      ensures Recorded().Stale() ==> old(Recorded().Stale())
      ensures kvLastGenerationStart <= old(kvLastGenerationStart)
      ensures ok && req.clearKv ==> kvLastGenerationStart == 0
      ensures !ok ==> (prior == old(State()) && kvTokens == old(kvTokens) <==>
                       RejectionIsClean(m, old(State()), old(kvTokens), req))
      ensures !ok && ValidLength(req) && req.clearKv ==> kvTokens == []
    {
      ok, finish, prompt, active, nCommon, prior := false, Error, [], Greedy, 0, State();
      if !ValidLength(req) { return; }
      if req.clearKv { ResetConversation(); }
      prior := State();
      var planned;
      planned, prompt, active := Prepare(req);
      if !planned { return; }
      finish := ContextFull;
      nCommon := ReusePrefix(prompt);
      var need := nCommon + (|prompt| - nCommon) + Reserve(active, req) + 8;
      if need > cfg.nCtx {
        chatHistory := prior.history;
        return;
      }
      ok := true;
    }

    /** One request. */
    method Generate(req: Request) returns (res: TurnResult)
      requires Valid()
      modifies this, tgt, dft
      ensures Valid()
      // the refinement: the conversation sees only what a decoder without a cache would do
      ensures ServesTurn(m, cfg, old(State()), req, res, State())
      // the transaction on the KV: an undone turn keeps a prefix of what was there, possibly nothing
      ensures !res.Completed() ==> kvTokens <= old(kvTokens)
      ensures res.Completed() ==>
                || kvTokens == PlanTurn(m, AfterReset(m, old(State()), req), req).value.prompt + res.emitted
                || (kvTokens == [] && Faults() > old(Faults()))
      // an admitted turn completes, or fills the context, unless a decode failed or a removal was refused
      ensures !res.rejected && (res.finish == Error || res.finish == Cancelled) ==> Faults() > old(Faults())
      ensures turn == old(turn) + if res.Completed() then 1 else 0
      // exactly when a rejected request has changed nothing
      ensures res.rejected ==>
                (State() == old(State()) && kvTokens == old(kvTokens) <==>
                 RejectionIsClean(m, old(State()), old(kvTokens), req))
      ensures res.rejected && ValidLength(req) && req.clearKv ==> kvTokens == []
      ensures Faults() >= old(Faults())
      ensures res.Completed() ==>
                TurnAccounts(old(Counted()), Counted(), |res.emitted|, res.finish,
                             cfg.spec.Enabled() && req.reasoningBudget < 0)
      ensures GoesStale(old(Recorded()), Recorded(), req, res)
    {
      var ok, finish, prompt, active, nCommon, prior := Admit(req);
      if !ok {
        res := TurnResult(finish, true, [], Tally(0, 0));
        RejectedServes(old(State()), req, res);
      } else {
        PlannedSampler(prior, req);
        ghost var plan := Plan(chatHistory, prompt, active);
        res := RunTurn(req, prompt, active, nCommon, prior);
        RanServes(old(State()), req, plan, res, State());
      }
    }

    /** A run of turns, under every cancel, decode failure, refused removal and draft. */
    method Chat(reqs: seq<Request>) returns (results: seq<TurnResult>, ghost states: seq<ChatState>)
      requires Valid()
      modifies this, tgt, dft
      ensures Valid()
      ensures ServesRun(m, cfg, states, reqs, results)
      ensures states[0] == old(State()) && states[|reqs|] == State()
      // if nothing goes wrong in the memories, every turn that is admitted completes
      ensures Faults() >= old(Faults())
      ensures Faults() == old(Faults()) ==>
                forall res <- results :: res.rejected || res.Completed() || res.finish == ContextFull
    {
      results, states := [], [State()];
      var i := 0;
      while i < |reqs|
        invariant 0 <= i <= |reqs| && Valid()
        invariant ServesRun(m, cfg, states, reqs[..i], results)
        invariant states[0] == old(State()) && states[i] == State()
        invariant Faults() >= old(Faults())
        invariant Faults() == old(Faults()) ==>
                    forall res <- results :: res.rejected || res.Completed() || res.finish == ContextFull
      {
        var res := Generate(reqs[i]);
        assert reqs[..i + 1] == reqs[..i] + [reqs[i]];
        ExtendRun(m, cfg, states, reqs[..i], results, reqs[i], res, State());
        results, states := results + [res], states + [State()];
        i := i + 1;
      }
      assert reqs[..i] == reqs;
    }
  }

  lemma ExtendRun(m: Backend, cfg: SessionConfig, states: seq<ChatState>, reqs: seq<Request>, results: seq<TurnResult>,
                  req: Request, res: TurnResult, after: ChatState)
    requires ServesRun(m, cfg, states, reqs, results)
    requires ServesTurn(m, cfg, states[|reqs|], req, res, after)
    ensures ServesRun(m, cfg, states + [after], reqs + [req], results + [res])
  {
    var st, rq, rs := states + [after], reqs + [req], results + [res];
    forall i | 0 <= i < |rq|
      ensures TurnAt(m, cfg, st, rq, rs, i)
    {
      if i < |reqs| {
        assert TurnAt(m, cfg, states, reqs, results, i);
        SameTurn(m, cfg, states, reqs, results, i, st, rq, rs, i);
      }
    }
  }

  lemma Regroup(a: seq<Token>, b: seq<Token>, c: seq<Token>)
    ensures a + b + c == a + (b + c)
  {
  }

  /** A verify batch is one ubatch, so that every one of its positions has its own snapshot. */
  lemma SmallBatchIsOneUbatch(n: nat, nUbatch: nat)
    requires nUbatch >= 1 && n >= 1
    ensures n <= nUbatch ==> (n - 1) / nUbatch * nUbatch == 0
  {
  }
}
