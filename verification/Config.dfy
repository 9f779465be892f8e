/** The part of the configuration that sizes the contexts: what validation accepts, and the widths
    that opening a session derives from it. */
module Config {
  import opened Wrappers
  import opened Basics

  datatype DraftSource = NoDraft | Mtp | Ngram

  datatype SpecConfig = SpecConfig(
    source: DraftSource,
    draftMax: int,
    draftPMin: real,
    ngramMinMatch: int,
    ngramMaxMatch: int)
  {
    predicate Enabled() { source != NoDraft }
  }

  const DRAFT_MAX_LIMIT := 8
  const NGRAM_MATCH_LIMIT := 64
  const MTP_DRAFT_UBATCH := 32

  datatype SessionConfig = SessionConfig(nCtx: int, nBatch: int, nUbatch: int, spec: SpecConfig, hot: bool, seed: int)

  /** The first failing check, in the order in which they are made. */
  function Validate(cfg: SessionConfig): Option<string> {
    var spec := cfg.spec;
    var effectiveBatch := Min(cfg.nBatch, cfg.nCtx);
    var effectiveUbatch := if cfg.nUbatch > 0 then Min(cfg.nUbatch, effectiveBatch) else effectiveBatch;
    if cfg.nCtx <= 0 then Some("n_ctx must be positive")
    else if cfg.nBatch <= 0 then Some("n_batch must be positive")
    else if cfg.nUbatch < 0 then Some("n_ubatch must be >= 0")
    else if spec.Enabled() && cfg.hot then Some("speculative decoding requires greedy decoding")
    else if spec.Enabled() && (spec.draftMax < 1 || spec.draftMax > DRAFT_MAX_LIMIT)
      then Some("spec.draft_max out of range")
    else if spec.source == Mtp && (spec.draftPMin < 0.0 || spec.draftPMin > 1.0)
      then Some("spec.draft_p_min must be in [0, 1]")
    else if spec.source == Ngram && spec.draftPMin != 0.0 then Some("spec.draft_p_min is an MTP knob")
    else if spec.source == Ngram && (spec.ngramMaxMatch < 1 || spec.ngramMaxMatch > NGRAM_MATCH_LIMIT)
      then Some("spec.ngram_max_match out of range")
    else if spec.source == Ngram && (spec.ngramMinMatch < 1 || spec.ngramMinMatch > spec.ngramMaxMatch)
      then Some("spec.ngram_min_match out of range")
    else if spec.Enabled() && effectiveUbatch < spec.draftMax + 1
      then Some("n_ubatch is narrower than the verify batch")
    else None
  }

  /** A configuration is accepted exactly when its sizes are usable and its draft source's own knobs are in their
      ranges, and each width that is set, and the context, can hold a verify pass. */
  lemma AcceptedExactly(cfg: SessionConfig)
    ensures var spec, width := cfg.spec, cfg.spec.draftMax + 1;
            Validate(cfg).None? <==>
              && 1 <= cfg.nCtx && 1 <= cfg.nBatch && 0 <= cfg.nUbatch
              && (spec.source == NoDraft
                  || (&& !cfg.hot && 1 <= spec.draftMax <= 8
                      && width <= cfg.nCtx && width <= cfg.nBatch && (cfg.nUbatch == 0 || width <= cfg.nUbatch)
                      && (if spec.source == Mtp then 0.0 <= spec.draftPMin <= 1.0
                          else spec.draftPMin == 0.0 && 1 <= spec.ngramMinMatch <= spec.ngramMaxMatch <= 64)))
  {
  }

  /** What opening a session checks by itself; the frontends validate before they open. */
  function CheckSession(cfg: SessionConfig): Option<string> {
    if cfg.nCtx <= 0 then Some("n_ctx must be positive")
    else if cfg.nBatch <= 0 then Some("n_batch must be positive")
    else if cfg.nUbatch < 0 then Some("n_ubatch must be >= 0")
    else None
  }

  /** The capping at the top of `open`. */
  function Capped(cfg: SessionConfig): SessionConfig {
    var nBatch := Min(cfg.nBatch, cfg.nCtx);
    cfg.(nBatch := nBatch, nUbatch := if cfg.nUbatch > 0 then Min(cfg.nUbatch, nBatch) else nBatch)
  }

  /** The conversion of an int to 32 unsigned bits. */
  function Unsigned(x: int): (u: nat) { x % 0x1_0000_0000 }

  datatype ContextParams = ContextParams(nCtx: int, nBatch: int, nUbatch: int, nRsSeq: int)

  function TargetParams(cfg: SessionConfig): ContextParams {
    var nBatch := Min(cfg.nBatch, cfg.nCtx);
    ContextParams(cfg.nCtx, nBatch, Min(cfg.nUbatch, nBatch),
                  if cfg.spec.Enabled() then Unsigned(cfg.spec.draftMax) else 0)
  }

  function DraftParams(target: ContextParams, spec: SpecConfig): ContextParams {
    target.(nRsSeq := 0, nUbatch := Min(target.nUbatch, Max(spec.draftMax + 1, MTP_DRAFT_UBATCH)))
  }

  /** The token capacity of the batch that serves prefill chunks and verify passes. */
  function BatchCapacity(cfg: SessionConfig): int {
    Max(cfg.nBatch, cfg.spec.draftMax + 1)
  }

  /** Every accepted configuration opens contexts of a usable width, and with speculation on one
      verify pass of 1 + draftMax positions fits the allocated batch, the context's batch and one
      ubatch of either context, with a snapshot for every draft that can be rejected. */
  lemma VerifyBatchFits(cfg: SessionConfig)
    requires Validate(cfg).None?
    ensures var c := Capped(cfg);
            var target := TargetParams(c);
            var draft := DraftParams(target, c.spec);
            && 1 <= target.nUbatch <= target.nBatch <= target.nCtx
            && target.nBatch == c.nBatch && target.nUbatch == c.nUbatch && target.nCtx == cfg.nCtx
            && (c.spec.Enabled() ==>
                  && 1 <= c.spec.draftMax
                  && 1 + c.spec.draftMax <= draft.nUbatch <= target.nUbatch
                  && 1 + c.spec.draftMax <= BatchCapacity(c)
                  && target.nRsSeq == c.spec.draftMax)
            && draft.nBatch == target.nBatch && draft.nRsSeq == 0
  {
  }

  /** Validation rejects no width that would have worked: of two configurations that differ in their
      batch widths alone, one that fits the verify pass is accepted if the other one is. */
  lemma NarrowGraphIsTheOnlyWidthRejected(cfg: SessionConfig, other: SessionConfig)
    requires Validate(other).None?
    requires cfg == other.(nCtx := cfg.nCtx, nBatch := cfg.nBatch, nUbatch := cfg.nUbatch)
    requires cfg.nCtx > 0 && cfg.nBatch > 0 && cfg.nUbatch >= 0
    ensures Validate(cfg).None? <==> (cfg.spec.Enabled() ==> 1 + cfg.spec.draftMax <= TargetParams(Capped(cfg)).nUbatch)
  {
  }
}
