/** Teacher-forced scoring of a fixed text, in one-token steps or in batches. */
module Perplexity {

  import opened Basics

  /** The log-probability a model gives a token after a prefix, its favourite there, and what a reset does
      to the state of a sampler. Nothing is assumed about them. */
  datatype Model = Model(logp: (seq<Token>, Token) -> real, best: seq<Token> -> Token, resetSampler: int -> int)

  function LogP(m: Model, prefix: seq<Token>, t: Token): real {
    m.logp(prefix, t)
  }

  function Best(m: Model, prefix: seq<Token>): Token {
    m.best(prefix)
  }

  /** What the scored positions add up to. */
  datatype Score = Score(nll: real, scored: nat, top1: nat)

  datatype Report =
    | Report(total: Score, mean: real, choices: seq<real>)
    | TooShort
    | TooLong
    | DecodeFailed
    | BadChoice
    /** The unscored prefix does not fit the batch that was allocated for it; nothing is known after that. */
    | Overrun
    | NothingScored

  /** The token after position pos, judged by the model that has read positions 0..pos. */
  function Judge(m: Model, text: seq<Token>, pos: nat, s: Score): Score
    requires pos + 1 < |text|
  {
    var seen := text[..pos + 1];
    Score(s.nll - LogP(m, seen, text[pos + 1]), s.scored + 1, s.top1 + if Best(m, seen) == text[pos + 1] then 1 else 0)
  }

  /** The score of the positions from..end - 1, each judged once. */
  function Total(m: Model, text: seq<Token>, from: nat, end: nat): Score
    requires end < |text| || end <= from
    decreases end
  {
    if end <= from then Score(0.0, 0, 0) else Judge(m, text, end - 1, Total(m, text, from, end - 1))
  }

  /** The first position each mode scores: the step mode feeds at least one token before it scores. */
  function FirstScored(step: bool, skip: int): nat {
    if step then (if skip < 1 then 1 else skip) else (if skip < 0 then 0 else skip)
  }

  /** The length of the prefix that the step mode feeds in one batch. */
  function PrefixLength(skip: int, n: nat): nat
    requires n >= 2
  {
    Max(1, Min(skip, n - 1))
  }

  /** The log-probability of each choice's first token after the whole text. */
  function ChoiceScores(m: Model, text: seq<Token>, choices: seq<seq<Token>>): (r: seq<real>)
    requires [] !in choices
    ensures |r| == |choices|
  {
    if choices == [] then []
    else
      var before, last := choices[..|choices| - 1], choices[|choices| - 1];
      assert last in choices;
      ChoiceScores(m, text, before) + [LogP(m, text, last[0])]
  }

  /** What a pass that got through reports. */
  function Reported(m: Model, text: seq<Token>, from: nat, choices: seq<seq<Token>>): Report
    requires |text| >= 2
  {
    var total := Total(m, text, from, |text| - 1);
    if [] in choices then BadChoice
    else if total.scored == 0 && choices == [] then NothingScored
    else Report(total, Mean(total), ChoiceScores(m, text, choices))
  }

  function Mean(s: Score): real {
    if s.scored > 0 then s.nll / s.scored as real else 0.0
  }

  // ---- what a report says, told from the model alone ----

  /** The log-probabilities of the tokens from + 1..end, each after everything before it. */
  function Logs(m: Model, text: seq<Token>, from: nat, end: nat): (xs: seq<real>)
    requires from <= end && (from < end ==> end < |text|)
    ensures |xs| == end - from
    ensures forall k :: 0 <= k < |xs| ==> xs[k] == m.logp(text[..from + k + 1], text[from + k + 1])
  {
    seq(end - from, k requires 0 <= k < end - from => m.logp(text[..from + k + 1], text[from + k + 1]))
  }

  function SumOf(xs: seq<real>): real {
    if xs == [] then 0.0 else SumOf(xs[..|xs| - 1]) + xs[|xs| - 1]
  }

  /** The token after position p is the model's favourite there. */
  predicate IsFavourite(m: Model, text: seq<Token>, p: nat)
    requires p + 1 < |text|
  {
    m.best(text[..p + 1]) == text[p + 1]
  }

  function Favourites(m: Model, text: seq<Token>, from: nat, end: nat): set<int>
    requires from < end ==> end < |text|
  {
    set p | from <= p < end && IsFavourite(m, text, p)
  }

  /** The positions scored are those after the skipped ones, and in step mode after the first, up to the last but
      one; each is judged by the token that follows it. Choices are scored after the whole text. */
  ghost predicate Says(m: Model, text: seq<Token>, step: bool, skip: int, choices: seq<seq<Token>>, r: Report)
    requires |text| >= 2
  {
    var from: nat, end := if step then Max(1, skip) else Max(0, skip), |text| - 1;
    if [] in choices then r == BadChoice
    else if from >= end && choices == [] then r == NothingScored
    else
      && r.Report? && |r.choices| == |choices|
      && (forall k :: 0 <= k < |choices| ==> r.choices[k] == m.logp(text, choices[k][0]))
      && if from >= end then r.total == Score(0.0, 0, 0) && r.mean == 0.0
         else
           && r.total.nll == -SumOf(Logs(m, text, from, end)) && r.total.scored == end - from
           && r.total.top1 == |Favourites(m, text, from, end)|
           && r.mean == -SumOf(Logs(m, text, from, end)) / (end - from) as real
  }

  lemma {:induction false} TotalSays(m: Model, text: seq<Token>, from: nat, end: nat)
    requires from <= end && (from < end ==> end < |text|)
    ensures var total := Total(m, text, from, end);
            && total.nll == -SumOf(Logs(m, text, from, end)) && total.scored == end - from
            && total.top1 == |Favourites(m, text, from, end)|
    decreases end
  {
    if from < end {
      TotalSays(m, text, from, end - 1);
      LogsGrow(m, text, from, end - 1);
      FavouritesGrow(m, text, from, end - 1);
    } else {
      assert Favourites(m, text, from, end) == {};
    }
  }

  lemma LogsGrow(m: Model, text: seq<Token>, from: nat, end: nat)
    requires from <= end && end + 1 < |text|
    ensures SumOf(Logs(m, text, from, end + 1))
            == SumOf(Logs(m, text, from, end)) + m.logp(text[..end + 1], text[end + 1])
  {
    assert Logs(m, text, from, end + 1)[..end - from] == Logs(m, text, from, end);
  }

  lemma FavouritesGrow(m: Model, text: seq<Token>, from: nat, end: nat)
    requires from <= end && end + 1 < |text|
    ensures |Favourites(m, text, from, end + 1)|
            == |Favourites(m, text, from, end)| + if IsFavourite(m, text, end) then 1 else 0
  {
    var now, next := Favourites(m, text, from, end), Favourites(m, text, from, end + 1);
    var grown := IsFavourite(m, text, end);
    forall p
      ensures p in next <==> p in now || (grown && p == end)
    {
    }
    OneMore(now, next, end, grown);
  }

  lemma {:induction false} ChoicesSay(m: Model, text: seq<Token>, choices: seq<seq<Token>>)
    requires [] !in choices
    ensures forall k :: 0 <= k < |choices| ==> ChoiceScores(m, text, choices)[k] == m.logp(text, choices[k][0])
  {
    if choices != [] {
      ChoicesSay(m, text, choices[..|choices| - 1]);
    }
  }

  lemma ReportSays(m: Model, text: seq<Token>, step: bool, skip: int, choices: seq<seq<Token>>)
    requires |text| >= 2
    ensures Says(m, text, step, skip, choices, Reported(m, text, FirstScored(step, skip), choices))
  {
    var from, end := FirstScored(step, skip), |text| - 1;
    if from < end {
      TotalSays(m, text, from, end);
    }
    if [] !in choices {
      ChoicesSay(m, text, choices);
    }
  }

  class Scorer {
    const m: Model
    const nCtx: nat
    const nBatch: nat
    /** The tokens in the target's cache. */
    var cells: seq<Token>
    /** For each row of logits the last decode computed, the prefix it was computed after. */
    var rows: seq<seq<Token>>
    /** The conversation that the session held, and the state of its sampler. */
    var history: seq<Message>
    var sampler: int
    /** Decodes that failed. */
    ghost var failures: nat

    constructor (m: Model, nCtx: nat, nBatch: nat)
      requires nBatch > 0
      ensures this.m == m && this.nCtx == nCtx && this.nBatch == nBatch && cells == [] && rows == [] && history == []
    {
      this.m, this.nCtx, this.nBatch, cells, rows, failures := m, nCtx, nBatch, [], [], 0;
      history, sampler := [], 0;
    }

    /** Decode a batch at the end of the cache, with logits for every token or for the last. */
    method Decode(batch: seq<Token>, allLogits: bool) returns (ok: bool)
      requires 0 < |batch| <= nBatch && |cells| + |batch| <= nCtx
      modifies this`cells, this`rows, this`failures
      ensures ok ==> cells == old(cells) + batch
      ensures failures == old(failures) + if ok then 0 else 1
      ensures ok && allLogits ==>
                |rows| == |batch| && forall j :: 0 <= j < |batch| ==> rows[j] == cells[..|old(cells)| + j + 1]
    {
      if * {
        failures := failures + 1;
        return false;
      }
      var before, now := |cells|, cells + batch;
      cells := now;
      rows := if allLogits then seq(|batch|, j requires 0 <= j < |batch| => now[..before + j + 1]) else [now];
      ok := true;
    }

    method ClearMemory()
      modifies this`cells, this`rows
      ensures cells == []
    {
      cells, rows := [], [];
    }

    /** What a new chat does. */
    method ResetConversation()
      modifies this`cells, this`rows, this`history, this`sampler
      ensures cells == [] && history == [] && sampler == m.resetSampler(old(sampler))
    {
      ClearMemory();
      history, sampler := [], m.resetSampler(sampler);
    }

    /** Score a text. Unless the length checks stop it, the conversation is reset before the pass and once
        more after it, whatever happens in between. */
    method Perplexity(text: seq<Token>, skip: int, step: bool, choices: seq<seq<Token>>) returns (r: Report)
      requires nBatch > 0
      modifies this
      ensures |text| < 2 ==> r == TooShort && unchanged(this)
      ensures |text| >= 2 && |text| > nCtx ==> r == TooLong && unchanged(this)
      ensures 2 <= |text| <= nCtx && r != Overrun ==>
                cells == [] && history == [] && sampler == m.resetSampler(m.resetSampler(old(sampler)))
      ensures failures >= old(failures) && (failures > old(failures) ==> r == DecodeFailed)
      ensures 2 <= |text| <= nCtx && failures == old(failures) ==>
                r == if step && PrefixLength(skip, |text|) > nBatch then Overrun
                     else Reported(m, text, FirstScored(step, skip), choices)
      ensures 2 <= |text| <= nCtx && failures == old(failures) && r != Overrun ==> Says(m, text, step, skip, choices, r)
    {
      if |text| >= 2 { ReportSays(m, text, step, skip, choices); }
      if |text| < 2 { return TooShort; }
      if |text| > nCtx { return TooLong; }
      ResetConversation();
      r := ScoreText(text, skip, step, choices);
      if r != Overrun { ResetConversation(); }
    }

    /** The pass between the two resets, with a warm-up decode that is discarded. */
    method ScoreText(text: seq<Token>, skip: int, step: bool, choices: seq<seq<Token>>) returns (r: Report)
      requires nBatch > 0 && 2 <= |text| <= nCtx && cells == []
      modifies this`cells, this`rows, this`failures
      ensures failures >= old(failures) && (failures > old(failures) ==> r == DecodeFailed)
      ensures failures == old(failures) ==>
                r == if step && PrefixLength(skip, |text|) > nBatch then Overrun
                     else Reported(m, text, FirstScored(step, skip), choices)
    {
      var ok := Decode(text[..1], false);
      if !ok { return DecodeFailed; }
      ClearMemory();
      var total, lastRow;
      if step {
        if PrefixLength(skip, |text|) > nBatch { return Overrun; }
        ok, total, lastRow := ScoreSteps(text, skip, choices != []);
      } else {
        ok, total, lastRow := ScoreBatches(text, skip);
      }
      if !ok { return DecodeFailed; }
      var good, list := true, [];
      if choices != [] {
        good, list := ScoreChoices(text, choices, lastRow);
      }
      r := if !good then BadChoice else if total.scored == 0 && choices == [] then NothingScored
           else Report(total, Mean(total), list);
    }

    /** The unscored prefix as one batch, then one decode a token. With choices the last token is fed
        too, so that the distribution after the whole text exists. */
    method ScoreSteps(text: seq<Token>, skip: int, choices: bool) returns (ok: bool, total: Score, lastRow: nat)
      requires 2 <= |text| <= nCtx && cells == [] && PrefixLength(skip, |text|) <= nBatch
      modifies this`cells, this`rows, this`failures
      ensures failures == old(failures) + if ok then 0 else 1
      ensures ok ==> total == Total(m, text, FirstScored(true, skip), |text| - 1)
      ensures ok && choices ==> lastRow < |rows| && rows[lastRow] == text
    {
      total, lastRow := Score(0.0, 0, 0), 0;
      var n := |text|;
      var prefix := PrefixLength(skip, n);
      ok := Decode(text[..prefix], false);
      if !ok { return; }
      var last := if choices then n else n - 1;
      var pos := prefix;
      while pos < last
        invariant prefix <= pos <= last && cells == text[..pos] && failures == old(failures)
        invariant total == Total(m, text, FirstScored(true, skip), if pos < n then pos else n - 1)
        invariant pos == n ==> lastRow < |rows| && rows[lastRow] == text
      {
        ok := Decode(text[pos..pos + 1], true);
        if !ok { return; }
        assert text[..pos] + text[pos..pos + 1] == text[..pos + 1];
        lastRow := 0;
        assert rows[0] == text[..pos + 1];
        if !(pos < skip || pos + 1 >= n) {
          total := ScoreRow(text, 0, pos, total);
        }
        pos := pos + 1;
      }
      ok := true;
    }

    /** Chunks of up to nBatch tokens, with logits everywhere. */
    method ScoreBatches(text: seq<Token>, skip: int) returns (ok: bool, total: Score, lastRow: nat)
      requires 2 <= |text| <= nCtx && cells == [] && nBatch > 0
      modifies this`cells, this`rows, this`failures
      ensures failures == old(failures) + if ok then 0 else 1
      ensures ok ==> total == Total(m, text, FirstScored(false, skip), |text| - 1)
      ensures ok ==> lastRow < |rows| && rows[lastRow] == text
    {
      total, lastRow := Score(0.0, 0, 0), 0;
      var n := |text|;
      var i := 0;
      while i < n
        invariant i <= n && cells == text[..i] && failures == old(failures)
        invariant total == Total(m, text, FirstScored(false, skip), if i < n then i else n - 1)
        invariant i == n ==> lastRow < |rows| && rows[lastRow] == text
      {
        var chunk := if nBatch < n - i then nBatch else n - i;
        ok := Decode(text[i..i + chunk], true);
        if !ok { return; }
        assert text[..i] + text[i..i + chunk] == text[..i + chunk];
        total := ScoreChunk(text, skip, i, chunk, total);
        lastRow := chunk - 1;
        i := i + chunk;
      }
      ok := true;
    }

    /** Score the positions of one decoded chunk. The last token of the text is never scored, and the
        last row of a chunk predicts the first token of the next one. */
    method ScoreChunk(text: seq<Token>, skip: int, i: nat, chunk: nat, total0: Score) returns (total: Score)
      requires chunk > 0 && i + chunk <= |text| && |text| >= 2
      requires |rows| == chunk && forall j :: 0 <= j < chunk ==> rows[j] == text[..i + j + 1]
      requires total0 == Total(m, text, FirstScored(false, skip), i)
      ensures total == Total(m, text, FirstScored(false, skip), if i + chunk < |text| then i + chunk else |text| - 1)
    {
      total := total0;
      var j := 0;
      while j < chunk
        invariant j <= chunk
        invariant total == Total(m, text, FirstScored(false, skip), if i + j < |text| then i + j else |text| - 1)
      {
        var pos := i + j;
        if !(pos + 1 >= |text| || pos < skip) {
          total := ScoreRow(text, j, pos, total);
        }
        j := j + 1;
      }
    }

    /** Judge the token at pos + 1 by one row of the last decode. */
    method ScoreRow(text: seq<Token>, row: nat, pos: nat, s: Score) returns (s': Score)
      requires row < |rows| && pos + 1 < |text| && rows[row] == text[..pos + 1]
      ensures s' == Judge(m, text, pos, s)
    {
      s' := Score(s.nll - LogP(m, rows[row], text[pos + 1]), s.scored + 1, s.top1);
      if Best(m, rows[row]) == text[pos + 1] {
        s' := s'.(top1 := s'.top1 + 1);
      }
    }

    /** Score each choice by its first token; a choice without one ends the pass. */
    method ScoreChoices(text: seq<Token>, choices: seq<seq<Token>>, lastRow: nat) returns (good: bool, list: seq<real>)
      requires lastRow < |rows| && rows[lastRow] == text
      ensures good <==> [] !in choices
      ensures good ==> list == ChoiceScores(m, text, choices)
    {
      list := [];
      var k := 0;
      while k < |choices|
        invariant k <= |choices| && [] !in choices[..k]
        invariant list == ChoiceScores(m, text, choices[..k])
      {
        if choices[k] == [] { return false, list; }
        assert choices[..k + 1] == choices[..k] + [choices[k]];
        assert choices[..k + 1][..k] == choices[..k];
        list := list + [LogP(m, rows[lastRow], choices[k][0])];
        k := k + 1;
      }
      assert choices[..k] == choices;
      good := true;
    }
  }

  /** A total is empty, or counts each position of its range once. */
  lemma {:induction false} TotalCounts(m: Model, text: seq<Token>, from: nat, end: nat)
    requires end < |text| || end <= from
    ensures Total(m, text, from, end).scored == if from < end then end - from else 0
    ensures Total(m, text, from, end).top1 <= Total(m, text, from, end).scored
    decreases end
  {
    if from < end {
      TotalCounts(m, text, from, end - 1);
    }
  }

  /** The two modes report the same on every text and with every choice, exactly when at least one
      token is skipped. */
  lemma ModesAgree(m: Model, skip: int)
    ensures skip >= 1 <==> forall text: seq<Token>, choices: seq<seq<Token>> | |text| >= 2 ::
      Reported(m, text, FirstScored(true, skip), choices) == Reported(m, text, FirstScored(false, skip), choices)
  {
    if skip < 1 {
      var text := [0, 0];
      TotalCounts(m, text, 1, 1);
      TotalCounts(m, text, 0, 1);
      assert Reported(m, text, FirstScored(true, skip), []) == NothingScored;
      assert Reported(m, text, FirstScored(false, skip), []).Report?;
    }
  }

  /** What goes wrong without a skip: the step mode scores one position fewer, on every text. */
  lemma StepsMissTheFirst(m: Model, text: seq<Token>, skip: int)
    requires |text| >= 2
    ensures var steps := Total(m, text, FirstScored(true, skip), |text| - 1).scored;
            var batches := Total(m, text, FirstScored(false, skip), |text| - 1).scored;
            batches == steps + if skip < 1 then 1 else 0
  {
    TotalCounts(m, text, FirstScored(true, skip), |text| - 1);
    TotalCounts(m, text, FirstScored(false, skip), |text| - 1);
  }

  /** When the step mode's prefix outgrows the batch: when both the skip and the text are longer than the
      batch allows. Some text that passes the length checks does, exactly when the context holds two tokens
      more than a batch. */
  lemma OverrunNeedsRoom(nCtx: nat, nBatch: nat)
    requires nBatch > 0
    ensures forall n: nat, skip: int {:trigger PrefixLength(skip, n)} :: n >= 2 ==>
              (PrefixLength(skip, n) > nBatch <==> skip > nBatch && n > nBatch + 1)
    ensures nCtx >= nBatch + 2 <==> exists n: nat, skip: int {:trigger PrefixLength(skip, n)} ::
              2 <= n <= nCtx && PrefixLength(skip, n) > nBatch
  {
    if nCtx >= nBatch + 2 {
      assert PrefixLength(nBatch + 1, nBatch + 2) > nBatch;
    }
  }
}
