# A model of the streaming engine's session, cache simulator and line protocol

This project models, in Dafny, the parts of the repository whose correctness is hardest to see from
reading one function, and proves what they promise.

* **The session** (`Decoder`, `Answers`, `Config`, `KvMemory`, `Conversation`, `Transcript`, `Session`). A session
  answers chat turns from a live KV cache: it reuses the longest common prefix, prefills the rest in chunks, drafts
  and verifies several tokens at once, and undoes a turn that is cancelled or fails. The model's
  `Session` class has the fields of the engine's session and two physical memories (target and draft);
  the memories are of three kinds, one that removes any tail, one that refuses every removal, and one
  that restores the wrong state when asked to go back further than its last decode. Decode failures,
  cancels, refused removals and drafts are nondeterministic. The language model, the samplers, the chat
  template and the tokenizer are uninterpreted functions. The main result is a refinement: whatever
  happens to the cache, a run of turns behaves as a decoder would that has no cache, no speculation and
  no memory (`Session.Chat`, `Conversation.EngineIsInvisible`). What that decoder answers is told once more without
  its loop, for each kind of sampler (`Decoder.GreedyMeaning`, `Answers.ChainMeaning`, `Answers.BudgetMeaning`), and
  what a conversation holds without the functions that plan a turn (`Transcript`).
* **The n-gram drafter** (`NgramDraft`). The backward scan with its early exits, against the definition of
  the longest, most recent earlier occurrence of the text's own ending.
* **The cache simulator** (`CacheSim`, `CacheSweep`), with what each of its six policies does to a schedule
  (`CacheReplay`), what that means in terms of the trace (`CacheOrder`), the theory of schedules (`CacheTheory`)
  and the exact limits of what the simulator claims: over the global policies (`CacheCeiling`) and over the
  partitioned ones (`CacheLayers`, `CachePrefill`), on any trace and on traces of the engine's shape
  (`CacheTraces`), with the traces that decide them (`CacheMix` with `CacheTrap`, and `CacheWide`). The simulator's class is proved to go through the schedules of its policy, and
  the theorems about schedules are the classical ones: the furthest-next-use policy is optimal, and LRU is a
  stack algorithm.
* **The aligned file reader** (`Bits`, `FileReader`). 64-bit mask arithmetic, short reads, the tail that a
  direct descriptor cannot read, and a bounce buffer that may fail to grow.
* **Context compaction** (`Compaction`), **teacher-forced scoring** (`Perplexity`) and the **line protocol**
  of an interactive session (`SessionLoop`), a state machine of two threads over all interleavings.

Code that changes state in the repository is a class or a method with loops here, proved against a
specification on values; code that computes a value is a function.

## Where the code and its documentation disagree

The model follows the code in each case.

* `docs/session.md:84` says that a rejected request was refused before it changed any state. The reset of a
  request with `clear_kv` (`core/src/engine/session_generate.cpp:67`) comes before every later check, so such
  a request wipes transcript, sampler and KV even when it is rejected; and the prefix trim (345) comes before
  the capacity check (366), so any other request rejected for capacity can shorten or clear the KV.
  `Session.Session.Generate` states exactly when a rejected request has changed nothing
  (`Conversation.RejectionIsClean`), and `Conversation.RejectionCanChange` gives a request of either kind that
  does change something, for every KV that holds anything.
* `core/src/engine/session_impl.h:183-187` says that the physical KV and its logical records must never
  disagree. The rollback of a turn puts the start of the last generation back unclamped
  (`core/src/engine/session_generate.cpp:389-390`), whatever has become of the tokens: after a cancelled,
  speculating turn whose final trim was refused and cleared everything, an old start stands over an empty
  record (`Session.RefusedTrimGoesStale`, for every such turn). Tokens and memories still agree. Only a cancelled
  speculating turn makes the start stale, and only if it continues a KV in which something was generated and
  does not ask for a new chat; the start stands over an empty record and is not past the old one, and the next
  turn that completes repairs it (`Session.Session.Generate`). A text turn reads the start only to save it and
  put it back; what reads it otherwise is the replay of media (lines 312-317).
* The output reserve is a 32-bit sum of `n_predict` and the reasoning allowance
  (`core/src/engine/session_generate.cpp:254`), and the guard at line 53 leaves room for the 8 positions of line
  356 only. The capacity check (366) admits only turns that fit exactly when that sum, and the one that makes
  the allowance, fit 32 bits (`Conversation.CheckIsSound`). A sum that overflows is modelled as wrapping around;
  then a turn can pass the check and fill its context (`Conversation.OverflowFillsContext`). It is undone like
  any other, and is not marked as rejected.
* `scripts/route-replay.py:10` calls the belady curve the ceiling that no online policy can pass. That
  holds for the global policies exactly when all experts have one size, on all traces
  (`CacheCeiling.CeilingNeedsOneSize`) and on those in which every token loads k experts of every expert layer
  (`CacheCeiling.EngineCeilingNeedsOneSize`): with any two sizes there is such a trace, and a budget, on which
  every replay of lfu has more hits than every replay of belady (`CacheMix.MixedSizesPass`). For the partitioned
  policies, with one size, it holds exactly when one batch of every expert layer fits the budget, or there is one
  expert layer (`CacheLayers.LayerCeilingNeedsRoom`); a slice is a share among all layers, with experts or
  without. On traces with a prefill of up to w experts in a layer it holds exactly when such a batch fits beside
  what the other layers hold while decoding, a slice or a token's experts (`CachePrefill.PrefilledCeilingNeedsRoom`).
* `core/include/bmoe/session.h:236` says that the first `skip` tokens are fed as one batch, and are not scored
  in either mode. With `skip` below 1 the step mode still leaves out position 0, which the batch mode scores;
  what the modes report agrees exactly when `skip` is at least 1 (`Perplexity.ModesAgree`). And the one batch
  has room for `n_batch` tokens (`core/src/engine/session_perplexity.cpp:67`), which nothing compares with the
  prefix (94-95): the step mode is defined exactly when skip or the text is short enough, and some accepted
  text overruns the batch exactly when the context is at least two tokens larger
  (`Perplexity.Scorer.Perplexity`, `Perplexity.OverrunNeedsRoom`).
* `docs/telemetry.md:518` says that a cancel may arrive at any time. In a turn that does not fail by itself it
  counts exactly when it comes after the turn has cleared the flag and before the end of the turn's last decode
  (`SessionLoop.CancelCountsUntilLastDecode`). One that arrives after the turn's BEGIN line but before the turn
  clears the flag is lost (`SessionLoop.EarlyCancelIsLost`), and so is one that arrives after the last decode
  and before the answer (`SessionLoop.LateCancelIsLost`).

## Model

| member | source | states |
|---|---|---|
| Session.Session.Chat | core/src/engine/session_generate.cpp:26-1080 | any sequence of chat turns, under every cancel, decode failure, refused KV removal and draft, serves each turn as a cache-free decoder would, and keeps both memories and the recorded tokens coherent between turns; if no decode failed and no removal was refused, every turn was rejected, completed, or filled a context that had no room for it |
| Session.Session.Generate | core/src/engine/session_generate.cpp:52-1080 | one turn: it is rejected exactly when it cannot be rendered or the 32-bit capacity check refuses it; the answer, finish reason and token accounting of a completed turn are the stateless decoder's; an unfinished turn restores transcript and sampler to their values after the optional reset and leaves a prefix of the old KV; an admitted turn completes unless a decode failed, a removal was refused, or there was no room for it; exactly when a rejected request has changed transcript, sampler or KV; which turns can leave the start of the last generation stale; in a completed turn every token in the context by generation cost one decode or was drafted and confirmed, no more was confirmed than drafted, and a turn that speculates asks its source before every decode but perhaps the last |
| Session.Session.Admit | core/src/engine/session_generate.cpp:53-371 | what a request goes through before its turn starts: it is admitted exactly when it can be planned and the check passes, and the KV is then a proper prefix of its prompt |
| Session.Session.RunTurn | core/src/engine/session_generate.cpp:373-409 | from a reused prefix to a committed or undone turn: on failure the transcript and sampler are back and the KV is the reused prefix or empty; the records go stale only in a cancelled speculating turn |
| Session.Session.PrefillAndRespond | core/src/engine/session_generate.cpp:494-922 | generation ends in stop, length, an undoable state, or, only without room for the output, a full context |
| Session.Session.Respond | core/src/engine/session_generate.cpp:905-922 | after the final trim the two contexts and the records hold exactly prompt and answer, or are all empty after a refused removal |
| Session.Session.DecodeLoop | core/src/engine/session_generate.cpp:594-903 | the speculative loop emits the stateless answer or a prefix of it, with the same finish reason, and leaves the target at most one token ahead of the record, within the last decode |
| Session.Session.GroupUnderway | core/src/engine/session_generate.cpp:769-902 | one draft-verify-accept-emit pass keeps the emitted text on the way to the stateless answer |
| Session.Session.Step | core/src/engine/session_generate.cpp:675-892 | after a pass both contexts end at the emitted text (or one end-of-generation token past it) and no group is cut short by the length limit; what was drafted keeps to exactly the room that is left, and is what the text suggests when the source is the n-gram one; the counters of drafts, drafting steps, confirmed tokens and decodes advance by what happened |
| Session.Session.VerifyStep | core/src/engine/session_generate.cpp:720-829 | the verify pass confirms exactly the drafts that argmax agrees with and settles both contexts on the accepted prefix |
| Session.Session.AcceptDrafts | core/src/engine/session_generate.cpp:774-787 | the accept scan finds the longest agreed prefix, ending at an accepted end of generation that is not emitted |
| Session.Session.CatchUp | core/src/engine/session_generate.cpp:809-817 | the draft context is advanced by the accepted prefix only |
| Session.Session.DropRejected | core/src/engine/session_generate.cpp:823-827 | a rejected tail lies within the last decode, so a memory with snapshots restores the right state |
| Session.Session.DraftTokens | core/src/engine/session_generate.cpp:681-718 | a draft keeps to the room and the draft limit, and the draft context is rewound to where drafting began |
| Session.Session.Emit | core/src/engine/session_generate.cpp:850-888 | every token of a group is recorded and charged once |
| Session.Session.ReusePrefix | core/src/engine/session_generate.cpp:298-349 | what is reused is the longest proper prefix of the prompt that the KV holds, or nothing after a refused trim; the KV loses nothing exactly when it is such a prefix |
| Session.Session.Prefill | core/src/engine/session_generate.cpp:494-534 | the chunks leave the whole prompt in both contexts; a failure leaves the reused prefix in front |
| Session.Session.RollbackTurn | core/src/engine/session_generate.cpp:384-405 | an undone turn leaves the prior transcript and sampler, and the reused prefix or an empty KV, coherent for every kind of memory; the records are exactly `Undone` of what they were |
| Session.RefusedTrimGoesStale | core/src/engine/session_generate.cpp:378-391 | a cancelled turn whose final trim was refused leaves the start of the last generation past an empty record if and only if something was generated before and is shared in part, whatever the turn decoded |
| Session.Session.Prepare | core/src/engine/session_generate.cpp:119-262 | rendering a request changes the transcript only, to what the turn is planned on (`Transcript.CompletedTurnAnswers` says what that is), and not at all when it cannot be served |
| Session.Session.TruncateKv | core/src/engine/session_context.cpp:93-117 | contexts and records are trimmed together or cleared together; a removal outside the last decode never goes through a snapshot |
| Session.Session.ResetConversation | core/src/engine/session_context.cpp:119-133 | a new chat has no KV, no transcript and a reset sampler |
| Session.Session.constructor | core/src/engine/session_open.cpp:38-47 | every configuration that passes the checks of opening gives an empty, coherent session, and a validated one satisfies the invariant, whichever of the target and the draft head is recurrent; a recurrent target keeps a snapshot for every draft exactly when the session speculates |
| KvMemory.Memory.RemoveTail | core/src/engine/session_context.cpp:75-81 | what a memory of each kind promises about removing a tail: nothing to remove is never refused, and only a held state is restored exactly |
| Decoder.GreedyMeaning | core/src/engine/session_generate.cpp:594-606 | the stateless greedy answer is the one text in which every token is the argmax after all before it, ended by the first bound met |
| Answers.BudgetMeaning | core/src/engine/session_generate.cpp:849-902 | under a reasoning budget an answer is the loop's if and only if every token is drawn from the state that the observer left after the one before, the tokens inside the span are reasoning up to the allowance and all others charged, and it ends at the first bound met, in the state it was left in |
| Answers.ChainMeaning | core/src/engine/session_generate.cpp:849-902 | the same of a sampling chain, which charges every token |
| Transcript.CompletedTurnAnswers | core/src/engine/session_generate.cpp:119-262 | a completed turn: the transcript rendered is the one before, or none in a new chat, and then the new user message, or else the caller's own messages; what the turn leaves is that transcript and the parsed answer; the answer is drawn by the request's budget, its own sampling, or the session's sampler, which only then moves on |
| Transcript.UndoneTurnLeaves | core/src/engine/session_generate.cpp:373-409 | any other turn leaves what it started from, and one with a bad length has not even started a new chat |
| Transcript.RejectedExactly | core/src/engine/session_generate.cpp:53-371 | a turn is rejected if and only if its length is out of range, or its messages cannot be rendered to a prompt that, with its 32-bit reserve and 8 positions, fits the context |
| Transcript.RunTranscript | core/src/engine/session_generate.cpp:1060-1078 | over any stretch of a run, the transcript is what it started as and then prompt and answer of every turn that completed, each at its place |
| Decoder.GroupIsSteps | core/src/engine/session_generate.cpp:769-787 | speculation refines greedy decoding: a verified group is that many one-token steps, whatever was drafted |
| Decoder.SampledGroupDiverges | core/src/config.cpp:272-279 | greedy is needed: with room for a draft, on every prompt and model where the chain's second token is not the argmax, a group that drafted the argmax is not what the chain would emit |
| Conversation.ExcludedCanDiverge | core/src/config.cpp:272-279 | every request that the refinement excludes, on every admitted prompt, has a backend and a draft within the room for which the first group is not in the stateless answer |
| Conversation.NgramCanDiverge | core/src/config.cpp:272-279 | for the n-gram source, that draft is the one it makes, on prompts of every length from its shortest match on |
| NgramDraft.DraftsNeedText | core/src/engine/ngram_draft.cpp:23-27 | on shorter ones the first group has no draft: some text of a length is drafted from if and only if it is longer than the shortest match |
| Decoder.GenerationBound | core/include/bmoe/session.h:163-168 | a turn ends within n_predict plus the reasoning allowance, every token charged to one of the two |
| Decoder.RoomySpaceNeverFull | core/src/engine/session_generate.cpp:351-371 | a context with room for everything that a turn may emit never fills |
| Conversation.CheckIsSound | core/src/engine/session_generate.cpp:254-371 | the capacity check never refuses a turn that has room, and admits only turns that have, on every prompt and context, if and only if the 32-bit sums do not overflow |
| Conversation.OverflowFillsContext | core/src/engine/session_generate.cpp:53-254 | for any prompt, a request whose reserve overflows, that passes the check and fills the context |
| Decoder.RoomDoesNotMatter | core/src/engine/session_generate.cpp:351-371 | the capacity of a context does not show in an answer that it does not cut |
| Conversation.EngineIsInvisible | core/src/engine/session_generate.cpp:298-349 | two sessions with any two configurations, memories and drafters, in which the same turns complete, hold the same conversation |
| Conversation.FailedTurnLeavesNoTrace | core/src/engine/session_generate.cpp:373-409 | a run with an unfinished turn removed is the same run |
| Conversation.FaultFreeRunsAgree | core/src/engine/session_generate.cpp:298-349 | two sessions in which nothing goes wrong and no prompt outgrows its context reject the same turns, give the same answers and hold the same conversation |
| Conversation.RejectionCanChange | docs/session.md:84-84 | for every KV that holds anything, a request rejected for capacity that cuts it, and a rejected clearing request that changes the conversation |
| Config.VerifyBatchFits | core/src/config.cpp:272-322 | every accepted configuration fits a verify pass in the allocated batch and in one ubatch, with a snapshot for each draft that can be rejected |
| Config.NarrowGraphIsTheOnlyWidthRejected | core/src/config.cpp:314-322 | validation rejects exactly the widths at which a verify pass would not fit one ubatch |
| Config.AcceptedExactly | core/src/config.cpp:278-322 | which configurations are accepted: usable sizes, the knobs of the chosen draft source in range, and every width that is set, with the context, wide enough for a verify pass |
| NgramDraft.Draft | core/src/engine/ngram_draft.cpp:8-66 | the draft is the tokens right after the best match, as many as there are and were asked for, and is empty exactly when no position reaches the floor |
| NgramDraft.DraftFollows | core/src/engine/ngram_draft.cpp:55-66 | a draft, in the text's own terms: an earlier place ends in the same tokens as the text, at least the floor and at most the cap; no place does in more and no later one in as many; and token i of the draft is the i-th token after that place |
| NgramDraft.Scan | core/src/engine/ngram_draft.cpp:26-57 | the scan with its early break and its cutoff finds the longest match, the most recent among equals |
| NgramDraft.MatchAt | core/src/engine/ngram_draft.cpp:38-45 | the inner loop measures the capped common suffix at one candidate |
| NgramDraft.SuffixMatchIsLongest | core/include/bmoe/ngram_draft.h:25-29 | the measure is the largest length at which the two endings are the same text |
| NgramDraft.BestIsUnique | core/include/bmoe/ngram_draft.h:25-29 | there is one best match, so one draft |
| NgramDraft.RepetitionDraftsItself | core/include/bmoe/ngram_draft.h:28-29 | a run of one repeated token predicts itself as soon as it is longer than the shortest match |
| CacheSim.Sim.Run | scripts/route-replay.py:230-239 | a replay is a schedule of its policy, in the order of all six, its counters are the schedule's hits, lookups and reads, with those of the prefill apart, and every byte counter is the sum it stands for |
| CacheSim.Sim.Batch | scripts/route-replay.py:202-228 | one batch: each distinct key is one lookup, a hit if it was resident before the batch; the eviction follows in the policy's order |
| CacheSim.Sim.EvictToBudget | scripts/route-replay.py:181-193 | eviction drops only unprotected candidates, in the policy's order and each one over the limit, until the limit holds or only protected keys are left |
| CacheSim.Sim.Victim | scripts/route-replay.py:157-172 | the victim precedes every other candidate in the policy's order, and there is none exactly when nothing is evictable |
| CacheSim.Sim.Drop | scripts/route-replay.py:195-199 | dropping a key keeps all byte counters equal to the sums they stand for |
| CacheSim.Sim.Admit | scripts/route-replay.py:220-225 | so does admitting one |
| CacheSim.BooksMean | scripts/route-replay.py:206-227 | the counters after a batch with duplicates: lookups are the distinct keys, hits those that were resident, bytes read the cost of the others |
| CacheReplay.LookupIsNextUse | scripts/route-replay.py:174-179 | the bisected lookup is the first later batch that touches the key |
| CacheReplay.TableIsOccurrences | scripts/route-replay.py:231-235 | the lookahead table lists, for every key, the batches that touch it, once each |
| CacheReplay.EvictionReplays | scripts/route-replay.py:157-193 | an eviction in the simulator's order is a step of the schedule that the policy stands for, told on the batches alone |
| CacheReplay.RankingTells | scripts/route-replay.py:165-179 | the order kept in tables is the order by next use, by last use, or by the number of batches so far and then last use |
| CacheOrder.EvictsInOrder | scripts/route-replay.py:157-179 | under each policy, told on the trace: a key that is dropped was loaded by fewer batches than any candidate that is kept, or by as many and was listed longer ago (lfu, layerlfu); was listed longer ago (lru, layer); or is not needed sooner (belady); no batch drops what it loads, and a partitioned policy drops only from the layer it serves |
| CacheOrder.DropsToFit | scripts/route-replay.py:181-193 | after a batch the cache fits the budget, or one layer of it its share, unless the batch loads all that is there; and if anything was dropped, something that was would not have fitted beside what is left |
| CacheReplay.StepDropsOldest | scripts/route-replay.py:172-172 | a step of lru is a step of the theory's least recently used policy |
| CacheReplay.PackingIsExact | scripts/route-replay.py:141-142 | the packed integer key determines layer and expert |
| CacheTheory.BeladyIsOptimal | scripts/route-replay.py:10-14 | no schedule that keeps to the same room has more hits than furthest-next-use, at any point of any batch sequence |
| CacheTheory.LruInclusion | scripts/route-replay.py:172-193 | at every batch the LRU-resident set at a smaller budget is contained in the one at a larger budget, for any layer costs |
| CacheLayers.LayersAreRoomy | scripts/route-replay.py:160-188 | a partitioned replay stays in the global room when one batch of every expert layer fits the budget |
| CacheSweep.BeladyIsTheCeiling | scripts/route-replay.py:10-14 | with one expert size, a belady replay has at least the hits of any other global policy's replay |
| CacheSweep.LruCurveIsMonotone | scripts/route-replay.py:301-307 | the lru curve never falls as the budget grows |
| CacheSweep.DecodeHitsAreAllHits | scripts/route-replay.py:273-274 | the decode-only hits are all hits, because prefill cannot hit |
| CacheSweep.CompareWithCeiling | scripts/route-replay.py:301-308 | one cell of the printed curve, the rate of decode hits in percent, does not pass the ceiling |
| CacheCeiling.CeilingNeedsOneSize | scripts/route-replay.py:10-14 | belady is a ceiling for the global policies on all traces and budgets if and only if all expert layers have one size of expert |
| CacheCeiling.EngineCeilingNeedsOneSize | scripts/route-replay.py:10-14 | so it is, for all global policies and for lfu alone, on the traces in which every token loads k experts of every expert layer, for any layers and any k |
| CacheTrap.LfuIsBetter | scripts/route-replay.py:165-193 | when one group is the rarest and the rest just fits, every lfu replay drops exactly that group |
| CacheLayers.LayerCeilingNeedsRoom | scripts/route-replay.py:10-20 | for any set of expert layers among the model's layers: belady is a ceiling for the partitioned policies if and only if one batch of every expert layer fits the budget, or there is at most one such layer |
| CachePrefill.PrefilledCeilingNeedsRoom | scripts/route-replay.py:53-83 | on traces of the engine's shape, with a prefill of up to w experts per layer: if and only if w experts of one layer fit beside the shares of the others, or there is one expert layer |
| CachePrefill.TrimmedIsCovered | scripts/route-replay.py:157-193 | belady covers a partitioned run whose prefill is larger than the budget, because what the second pass drops unused is of no use to it |
| CacheWide.LayeredIs | scripts/route-replay.py:160-193 | every partitioned lru replay of a wide prefill keeps exactly the newest keys of each layer from the second pass on |
| CacheWide.WidePasses | scripts/route-replay.py:53-83 | where the room is too small, every such replay has more hits than any replay of any global policy |
| CacheMix.MixedSizesPass | scripts/route-replay.py:165-193 | for any expert layers of which two differ in size and any k, a trace of the engine's shape and a budget on which every lfu replay has more hits than every belady replay |
| CacheReplay.ReplayExists | scripts/route-replay.py:230-239 | every trace has a replay under every policy, so the comparisons are not empty |
| FileReader.FileReader.Read | core/src/io/file_reader.cpp:107-190 | a successful read puts exactly the requested bytes in the caller's buffer and returns the window pulled; a range outside the file is refused; a read inside it fails only when the platform failed a read or an allocation, or the tail needs the descriptor that did not open; nothing else is written, and the lane stays usable |
| FileReader.FileReader.PullWindow | core/src/io/file_reader.cpp:139-183 | the bounce holds the aligned window, cut at the end of the file |
| FileReader.FileReader.PullBlocks | core/src/io/file_reader.cpp:162-183 | whole blocks go through the direct descriptor and the rest through the buffered one, within the bounce |
| FileReader.FileReader.GrowBounce | core/src/io/file_reader.cpp:142-155 | a refused allocation leaves an empty lane and not one that advertises a freed buffer |
| FileReader.FileReader.ReadRange | core/src/io/file_reader.cpp:162-169 | short reads fill exactly the range; a direct range is finished only if every read of it started on a block boundary |
| FileReader.AlignedRead | core/src/io/file_reader.cpp:162-169 | within an aligned window, position, buffer and length of a direct read are whole blocks exactly when it starts on a boundary |
| FileReader.FileReader.Open | core/src/io/file_reader.cpp:16-105 | opening gives every lane its own descriptor, direct exactly when that was asked for and the platform reported a block-bound one, and then a bounce of the size asked for; or, after a failed open or allocation, leaves the reader closed; a refused open changes nothing |
| FileReader.FileReader.Reopen | core/src/io/file_reader.cpp:192-201 | reopening replays the settings of the last open that was not refused |
| FileReader.WindowEndIsFirst | core/src/io/file_reader.cpp:139-159 | the window ends at the first position where a direct read may stop, or at the end of the file |
| Bits.RoundDownIsFloor | core/src/io/file_reader.cpp:139-140 | for a power of two, clearing the low bits is rounding down to a multiple |
| Compaction.Chat.MakeContextRoom | core/src/engine/session_generate.cpp:162-212 | the loop ends; everything from the last user message on, and every system message or message with a medium, stays; what it leaves is the messages before the first turn, at most one note, and a suffix that starts a turn; a context that grew at least doubled or reached the maximum; everything dropped was unprotected and too long to keep, in the context that is there at the end unless a resize was refused; growth comes before summarizing and summarizing before dropping; it stops only when the conversation fits or nothing more can be done |
| Compaction.Chat.GrowOnce | core/src/engine/session_generate.cpp:167-175 | growth is attempted when the policy and the maximum allow it, and reaches the need or the maximum |
| Compaction.Chat.ShrinkOnce | core/src/engine/session_generate.cpp:176-207 | the oldest unprotected turn is replaced by a summary that saves more than 16 tokens, or dropped if that is allowed, or nothing can be done |
| Compaction.Chat.ShrunkIsCut | core/src/engine/session_generate.cpp:176-207 | shrinking a legal cut of the original leaves a legal cut of the original |
| Compaction.OldestCompleteTurn | core/src/engine/chat_render.cpp:147-167 | the oldest turn that another one follows and whether it is protected, or none exactly when there are not two turns |
| Compaction.ProtectedMeans | core/src/engine/chat_render.cpp:165-165 | a message is protected exactly when it is the system's or the marker stands somewhere in it |
| Compaction.TextJoins | core/src/engine/session_generate.cpp:184-196 | the text that a summary is weighed against is the contents of the turn's messages, joined in order |
| Compaction.TrimDropsLeast | core/src/engine/session_generate.cpp:165-166 | a trimmed conversation that fits dropped as few turns as possible |
| Compaction.Chat.GrownContextSize | core/src/engine/session_context.cpp:135-137 | growth is real, bounded by the maximum, reaches the need when the maximum does, and at least doubles the context short of the maximum |
| Perplexity.Scorer.Perplexity | core/src/engine/session_perplexity.cpp:16-166 | a pass reports minus the plain sum of the log-probabilities of the tokens after the scored positions, each given everything before it, their number, how many were the model's favourite, the mean, and each choice's first token after the whole text, whatever the batch width; it fails only when a decode failed or exactly when the prefix does not fit the batch; every other exit after the length checks leaves KV, transcript and sampler as a new chat does |
| Perplexity.TotalSays | core/src/engine/session_perplexity.cpp:76-88 | judging positions one by one adds up to that sum and those counts |
| Perplexity.OverrunNeedsRoom | core/src/engine/session_perplexity.cpp:67-95 | the prefix does not fit exactly when both the skip and the text are too long for the batch, and a text that passes the length checks can do that if and only if the context holds two tokens more than a batch |
| Perplexity.Scorer.ScoreSteps | core/src/engine/session_perplexity.cpp:90-113 | the step loop adds up exactly the positions from max(1, skip) on |
| Perplexity.Scorer.ScoreBatches | core/src/engine/session_perplexity.cpp:114-132 | so does the batch loop, from max(0, skip) on, and the last row follows the whole text |
| Perplexity.Scorer.ScoreChoices | core/src/engine/session_perplexity.cpp:133-149 | each choice is scored by its first token after the whole text, and one without tokens ends the pass |
| Perplexity.ModesAgree | core/include/bmoe/session.h:220-241 | the two modes report the same on every text if and only if skip is at least 1 |
| Perplexity.StepsMissTheFirst | core/src/engine/session_perplexity.cpp:94-111 | otherwise the step mode scores exactly one position fewer, on every text |
| SessionLoop.RunIsSafe | cli/main.cpp:109-217 | in every interleaving the commands taken up are the input's, in order, up to a close; and an ended input has queued its close after them |
| SessionLoop.BeginsAreAnswered | cli/main.cpp:156-217 | at every moment the turns answered are the turns begun, in order, but for at most one that is open |
| SessionLoop.CancelCountsUntilLastDecode | core/src/engine/session_generate.cpp:751-763 | a turn whose decodes did not break by themselves is answered cancelled if and only if a cancel came after its own reset and before the end of its last decode |
| SessionLoop.EarlyCancelIsLost | core/src/engine/session_generate.cpp:52-52 | a cancel between BEGIN and the reset leaves no trace |
| SessionLoop.LateCancelIsLost | core/src/engine/session_generate.cpp:905-922 | neither does one between the last decode and the answer |
| SessionLoop.FatalEndsTheLoop | cli/main.cpp:184-191 | a fatal failure is the last turn of a run: nothing but cancels is logged after its answer, and the worker is on its way out for a failure exactly when a fatal one was answered |
| SessionLoop.InvKept | cli/main.cpp:107-224 | no step of either thread loses, doubles or reorders a command, or breaks the log's grammar |
| SessionLoop.NeverStuck | cli/main.cpp:144-145 | a run can go on until both threads are gone |
| SessionLoop.RunsEnd | cli/main.cpp:111-137 | no run takes more steps than its input has work, counting for each turn the decodes that it may do |
| SessionLoop.OverIsDone | cli/main.cpp:130-137 | when both are gone, every turn begun was answered, and without a fatal failure every command up to the close was taken up |

## Left out

- Session.Session.Generate: a request that overrides a speculating session with a sampling chain, for more than one token, is excluded by `AnswersExactly` in `ServesTurn`, because verification is by argmax while the next token is sampled (`Conversation.ExcludedCanDiverge`); its transaction and its bounds are still proved. Of the n-gram source it is not said in which later group it first drafts when the prompt is shorter than its shortest match.
- Perplexity.Scorer.Perplexity: the exponential of the mean and the routing counters are not modelled, nor what follows once the prefix overran its batch.
- Compaction.Chat.MakeContextRoom: a summary is an arbitrary text; how it is generated in a temporary context, and that a resized context's allocation can fail for a reason, are not modelled.
- SessionLoop.RunIsSafe: the queue and both flags are sequentially consistent, so memory ordering is not modelled; waiting on the condition variable is a step that is not enabled.
- FileReader.FileReader.Read: one lane at a time; concurrent lanes share nothing but a byte counter. Timing is not modelled.
- FileReader.FileReader.Open: does not model the comparison of a direct with a buffered block, and the fallback after it; whether a descriptor is alignment-bound is arbitrary.
- CacheSim.Sim.Victim: ties are broken arbitrarily where the script breaks them by dictionary order, and a random choice is any choice. Keys are pairs instead of packed integers, which loses nothing (`CacheReplay.PackingIsExact`).
- Session.Session.Prepare: a template that fails rejects the turn, as it does when a template is configured; the fallback to a raw prompt is not modelled.
- Media turns and their replay, and raw turns outside the chat template, whose tokens the engine does not record.
- Growing or compacting the context in the middle of generation (context policy on), whose failure asks the caller to clear the conversation. The session is modelled with the policy off, where a full context ends the turn.
- Near-ties between the logits of a wide batch and of a single token, which the repository excludes from its own equivalence.
- Integer widths of token counts and sizes, except the reader's 64-bit masks and the sums of the output reserve. A 32-bit sum that overflows is undefined in the source; the model takes it to wrap around.
- Per-token metrics, tallies, traces and timing, apart from the counters of speculation.
- Building batches from trace rows, the simulator's command line and its tables.
- The HTTP server, JSON parsing, flag parsing, subprocesses, the C interface and the expert streamer itself.
