# Ledger store: a verified model

The repository keeps the outcomes of speculative-decoding verify steps in a "ledger": a hashed table of context entries
with candidate counts, a table of longer spans over a shared token arena, and a proposer that drafts token trees from
them. This project models that core in Dafny and proves that it does what it is for.

The store is a fast form of something simple. Contexts are hashed to 64-bit keys, entries cache derived tuples, stale
entries are found only when they are read, old ones fall out first-in first-out, spans share deduplicated storage. The
main theorems say that none of this shows: lookups return what a table keyed by the exact contexts returns
(`Correctness.AnswersLikeTheExactTable`), a reloaded store answers like the original for ever
(`Reloads.ReloadedStoreAgrees`), and in positive mode the table depends on the token stream alone
(`Simulators.PositiveReplay`).

## How the files fit together

| files | content |
|---|---|
| `Words`, `SuffixAutomaton` | left-maximal words; the online suffix automaton with its match cursor and its occurrence counts |
| `Bits`, `Signature` | 64-bit words as integers; mixing, key folding and rolling signatures |
| `Backoff`, `BlendLaws` | the weighted mixture of sources, in exact reals, and what a posterior says in counts |
| `Dicts`, `HotEntry`, `EntryRuns` | insertion-ordered maps; hot entries and what every run of one keeps |
| `Types`, `HotTable`, `LockStep`, `Epochs`, `Bounds`, `TableRuns`, `Chunking`, `Counting`, `Eviction` | the hot table as a function of what it is told, and theorems over all its runs |
| `Spans`, `SpanHistory`, `SpanChoice`, `SpanEffects` | runs, spans and break histograms by content, theorems over all their histories, and what each operation does to them in counts |
| `Arena`, `LedgerStore` | the classes on the heap, each method proved against the value-level functions |
| `Ledger`, `Answers`, `Evidence`, `Documents`, `Reload`, `Correctness` | the whole ledger as a value, what lookups read and answer, snapshots, and the main theorems |
| `Drafts`, `Drafting`, `DraftLaws`, `Proposer`, `Replay`, `Simulator` | draft trees, the oracle, what is drafted, the ledger proposer and the replay loop |

Heap classes and value-level functions are tied by views: `HotEntry.View`, `LedgerStore.HotView`, `SpanView` and `View`
give the value an object stands for, and every method that changes state says which function of the old view the new
view is. `LedgerStore.Perform` is the refinement statement for the store as a whole.

The value-level functions are in turn held to laws that do not mention them. Counts are compared with the positions of
the applied events (`Counting`), what a lookup reads with stamps and edits (`Evidence`), a posterior with the counts of
its sources (`BlendLaws`), the span found with all spans that could be (`SpanChoice`), and a drafted tree with the
answers along each node's path (`DraftLaws`).

## Conventions and hypotheses

- Python integers that are masked to 64 bits are integers below 2^64; xor and shift are defined bit by bit.
- Python dictionaries are maps with a key order, since eviction and compaction follow it.
- Floating-point values are exact reals. The q8 probability is any positive function and rounding to one decimal any
  function (`BackoffParams.prob`, `BackoffParams.round1`).
- Scope and file ids are given numbers. A scope stack lists session, repository and tenant ids in this order.
- A dedup key of the arena is the content itself, that is, the content digest is taken to be injective.
- Store-level claims that compare hashed keys with contexts assume that the contexts spoken about do not share a key
  (`LockStep.InjectiveOn`). Nothing is assumed of `fmix64`, which is proved to be a bijection.
- Parameters are sane: `1 <= k_init <= k_max`, `decay_shift >= 1`, positive decays, priors and betas; segments of a
  request lie in 0..3; q8 values of top-k rows in 0..255; no active tier lies beyond the eighth scope level,
  the length of the scope decay table.
- An event has at least as many q8 rows as id rows, and at least one scope.
- `Proposer.Other` stands for every other proposer: a replay is proved for any tree it may propose at any position of
  any request.

One would expect that more acceptances of a token never lower its acceptance estimate. That holds only if the
observation is worth more than the weight it adds to its source; `BlendLaws.RightWayIffItFits` gives the exact condition
and, where it fails, the sources that show it. The default priors meet it in every source that has evidence, with
equality in the worst case (`BlendLaws.SmallPriorsFit`); a first observation in a source without any never does.

The documentation of `sig_stack` speaks of orders 2 to 8 only; the code ignores longer stacks, and so does the model.
The oracle is described as accepting the longest path of any tree; it takes the first matching child for good, so that
repeated siblings can mislead it, and `Drafts.LongestIffUnshadowed` says exactly when. The comment on freshness speaks
of entries in general. A flushed run stamps its span with the epoch of the flush, a fresh span keeps its file when it is
observed again, and a stale span that meets a shorter run keeps its old body; the model follows the code in all three,
and states the freshness theorem for hot entries only.

## Model

| member | source | states |
|---|---|---|
| `Words.NewMaximal` | core/signature.py:150-170 | Appending a token makes exactly two words left-maximal: the whole stream and the longest repeat (iff). This is why one `extend` adds one state, or one state and one clone, and never more. |
| `SuffixAutomata.WalkFound` | core/signature.py:138-148 | Where the walk along suffix links stops, state and token spell the longest suffix of the new stream that occurred before. |
| `SuffixAutomata.PlainStepInv` | core/signature.py:151-161 | A step without cloning carries the whole automaton invariant (states = left-maximal words, links = longest shorter state, transitions = shortest enclosing state) to the longer stream. |
| `SuffixAutomata.CloneStepInv` | core/signature.py:162-168 | So does a step with cloning, including the redirection of exactly the transitions that must turn to the clone. |
| `SuffixAutomata.CloneKeepsTable` | core/signature.py:163-167 | The split state and its clone have the same outgoing transitions after the step, so a match cursor left on the split state reads on correctly without repair. |
| `SuffixAutomata.SuffixAutomaton.Match` | core/signature.py:137-148 | The recurrence walk, started from a cursor that is `link[last]` or its split state, ends where a walk from `last` ends, and sets cursor and length accordingly. |
| `SuffixAutomata.SuffixAutomaton.Open` | core/signature.py:151-155 | The first loop opens a transition on the new token exactly at the states above the stopping point of the walk. |
| `SuffixAutomata.SuffixAutomaton.Redirect` | core/signature.py:164-166 | The second loop turns exactly the transitions into the split state that belong to suffixes of the repeat. |
| `SuffixAutomata.SuffixAutomaton.Split` | core/signature.py:162-168 | Cloning in place realizes the cloning step of the invariant; the clone starts with count 0. |
| `SuffixAutomata.SuffixAutomaton.Extend` | core/signature.py:134-170 | For every stream: the result is the length of the longest suffix (new token included) that also occurs starting earlier, overlaps allowed; it equals `length[link[last]]`; at most 2n-1 states for n >= 2 (in `Valid`). |
| `SuffixAutomata.RepeatIsRecurrence` | core/signature.py:134-148 | The longest suffix that occurred before the new token is the longest one that recurs in the extended stream. |
| `SuffixAutomata.ReadIsRight` | core/signature.py:116-170 | A word can be read from state 0 iff it is a contiguous substring, and it leads to the state with its end positions. |
| `SuffixAutomata.SameStateIffSameEnds` | core/signature.py:116-170 | Two substrings reach the same state iff they have the same set of end positions. |
| `SuffixAutomata.LinkPartsSuffixes` | core/signature.py:150-170 | `link` leads to the longest suffix with other end positions: a suffix of a state shares its ends iff it is longer than the link. |
| `SuffixAutomata.CoveredStep` | core/signature.py:172-176 | One addition of the descending-length pass: the end positions counted at the parent grow by those of the child, disjointly. |
| `SuffixAutomata.CoveredFull` | core/signature.py:172-176 | When all states linked to a state are done, all its end positions are counted. |
| `SuffixAutomata.SuffixAutomaton.FinalizeCounts` | core/signature.py:172-176 | After any stream, one call leaves `cnt` equal to the number of occurrences of the words of each non-root state, and so of every non-empty substring read into it. |
| `SuffixAutomata.CountOfWord` | core/signature.py:172-176 | Every non-empty substring is counted at the state it is read into. |
| `Signatures.MixBijective` | core/signature.py:31-36 | `fmix64` is a bijection on 64-bit words; `Unmix` is its two-sided inverse. |
| `Signatures.FoldKeySeparates` | core/signature.py:47-53 | `fold_key` is injective separately in signature, order, scope and segment 0..3 (iff each), so a context never shares a key across two scopes. |
| `Signatures.SpanKeyFollowsFoldKey` | core/store.py:517-517 | Span keys collide exactly when the hot keys they are made of do. |
| `Signatures.SigSeparates` | core/signature.py:39-44 | Two token sequences that differ in exactly one place have different signatures iff the two tokens differ modulo 2^64. |
| `Signatures.InlinedKey` | core/store.py:253-276 | The key computed from precombined scope and segment parts is `fold_key`. |
| `Signatures.ComputeSigOf` | core/signature.py:39-44 | The accumulating loop computes the signature of the token sequence. |
| `Signatures.RollingSigStack.Push` | core/signature.py:73-79 | Overwriting the slots from the top down keeps slot o equal to the signature of the last min(o, n) tokens, for every o in 1..8. |
| `Signatures.RollingSigStack.PushMany` | core/signature.py:81-83 | Pushing a sequence extends the stream by it. |
| `Signatures.RollingSigStack.StackList` | core/signature.py:91-96 | The list holds the signatures of the last 2, 3, ... 8 tokens, as far as the stream reaches. |
| `Signatures.RollingSigStack.Clone` | core/signature.py:98-102 | A clone stands for the same stream and shares no storage. |
| `Signatures.TailKeepsStackAfter` | sim/replay.py:171-173 | Eight tokens of context, continued by any tokens, give the same signature stacks as the whole stream continued by them. |
| `Backoff.LamMonotone` | core/backoff.py:57-60 | The interpolation weight rises with match length and count and falls with scope depth. |
| `Backoff.Blend` | core/backoff.py:84-162 | Accumulation, scoring, ranking, truncation and renormalisation compute what `IsBlend` says independently of any order of accumulation; what that means in counts is said by the `BlendLaws` rows. |
| `Backoff.AddSource` | core/backoff.py:104-127 | Adding one source in place joins its contribution into the slot of each of its candidates, and into no other. |
| `Backoff.Rank` | core/backoff.py:151-151 | The sort yields the ranking by rounded relative score, then support, then token. |
| `Backoff.RankingUnique` | core/backoff.py:151-152 | That order is total: a set of candidates has exactly one ranking. |
| `Backoff.BlendConserves` | core/backoff.py:129-146 | Before truncation the frequencies sum to exactly 1, and so do the p_hat values. |
| `Backoff.BoardBounds` | core/backoff.py:133-146 | Every p_acc lies strictly between 0 and 1, every p_hat and score is positive. |
| `Backoff.BlendIsSound` | core/backoff.py:152-162 | After truncation: at most `max_cands` distinct tokens, p_acc strictly inside (0, 1), p_hat positive with sum at most 1, and exactly 1 when nothing was cut. |
| `Backoff.BlendsIffEvidence` | core/backoff.py:85-96 | A posterior is returned iff some source has a positive count. |
| `Backoff.OrderIndependent` | core/backoff.py:84-162 | The same sources in any order, with candidates in any order, blend to the same posterior. |
| `BlendLaws.PosteriorIs` | core/backoff.py:129-159 | A listed candidate carries the estimates and the support of its token, and the final renormalisation changes nothing. |
| `BlendLaws.ObservationMoves` | core/backoff.py:104-139 | One more acceptance of a token in a trusted source strictly raises its p_acc and one more rejection strictly lowers it, whatever the other sources, if the observation fits the source: count_prior * (acc + rej + beta_a + beta_b) <= n * (n + 1 + count_prior) for its n observations. |
| `BlendLaws.ObservationMisleads` | core/backoff.py:104-139 | Where it does not fit, there are other sources next to which one more acceptance lowers p_acc, and one more rejection raises it: the weight that comes with the observation counts for more than the observation. |
| `BlendLaws.RightWayIffItFits` | core/backoff.py:104-139 | So p_acc moves the right way next to all possible other sources iff the observation fits the source. |
| `BlendLaws.SmallPriorsFit` | core/backoff.py:30-32 | If count_prior * (beta_a + beta_b) <= 2, which the defaults meet with equality, every observation fits every source with any evidence. |
| `BlendLaws.PosteriorMoves` | core/backoff.py:84-162 | The same of the two posteriors returned before and after the observation. |
| `BlendLaws.UntrustedObservation` | core/backoff.py:107-122 | An observation in a source below `p_hat_min_order` does not change the p_acc of its token at all. |
| `BlendLaws.AcceptanceSide` | core/backoff.py:118-139 | Where the trusted sources that hold a token agree, p_acc lies on their side of 1/2, and it is exactly 1/2 when no trusted source holds the token. |
| `BlendLaws.SoleAnnotator` | core/backoff.py:118-139 | With one trusted source: p_acc > 1/2 iff acc + beta_a > rej + beta_b, and < 1/2 iff the reverse. |
| `BlendLaws.AcceptanceIsCautious` | core/backoff.py:131-139 | The gate keeps p_acc strictly below any rate above 1/2 that no trusted source exceeds, and strictly above any rate below 1/2 that none falls short of. |
| `BlendLaws.ProbabilityMoves` | core/backoff.py:110-140 | A more probable q8 code of a token in one source never lowers its p_hat, and strictly raises it if the source is trusted and holds other tokens. |
| `BlendLaws.PosteriorSupport` | core/backoff.py:123-127 | Support is the largest number of observations of the token in any source with evidence, not their sum; only such tokens are listed, all of them if there is room. |
| `BlendLaws.FavouredRanksFirst` | core/backoff.py:136-152 | A token for which every source with evidence has at least as many acceptances and observations and as probable a code as for a larger token is listed before that token. |
| `BlendLaws.RelativeScores` | core/backoff.py:150-151 | Relative scores are positive and at most 1, and the best is 1. |
| `BlendLaws.BestOrderIs` | core/backoff.py:161-161 | The best order is the longest match among the sources. |
| `HotEntries.HotEntry.Reset` | core/store.py:112-117 | Drops the candidates and restamps, but keeps the capacity reached. |
| `HotEntries.HotEntry.EvictWeakest` | core/store.py:119-129 | Removes the unique weakest candidate other than the protected one, if there is one. |
| `HotEntries.WeakestUnique` | core/store.py:124-128 | The eviction order is total: there is exactly one weakest candidate. |
| `EntryRuns.UpdateEvicts` | core/store.py:119-142 | An update costs a candidate iff its token is new, the entry is full and may not grow; then exactly the one with the fewest observations goes (ties: less probable, then larger token), and no other candidate changes. |
| `HotEntries.HotEntry.Ensure` | core/store.py:131-142 | Makes room for a token: grows below the coverage target, otherwise evicts. |
| `HotEntries.HotEntry.UpdateRealized` | core/store.py:144-148 | The entry becomes the realized update of its old value; the cache is dropped. |
| `HotEntries.HotEntry.UpdateRejected` | core/store.py:150-154 | The entry becomes the rejected update of its old value; the cache is dropped. |
| `HotEntries.HotEntry.MergeTopk` | core/store.py:156-186 | Coverage average, fading of the ids left out, merging of q8 values and adaptive growth, as one function of the old value. |
| `HotEntries.HotEntry.Sources` | core/store.py:188-201 | The cached view, whether recomputed or reused, equals a fresh recomputation with both totals. |
| `HotEntries.HotEntry.Decay` | core/store.py:564-575 | Halves the counts, drops what reaches zero and clamps the capacity. |
| `HotEntries.MergeKeepsCounts` | core/store.py:156-186 | A top-k merge never removes a candidate and never changes its counts. |
| `EntryRuns.RowMovesProbabilities` | core/store.py:170-185 | After a top-k row of distinct tokens: a listed code has moved a quarter of the way to the row, rounded down; one left out has lost 16 codes, up to 255; a newcomer has the row's code and no counts. |
| `EntryRuns.RowMovesCoverage` | core/store.py:161-185 | Coverage moves a quarter of the way to the share of the row that was held, and where there is room every listed token is taken in. |
| `Bits.ShrIsDivision` | core/store.py:566-567 | The right shift that decays the counts is floor division by a power of two. |
| `EntryRuns.RunKeepsOk` | core/store.py:112-186 | Over every run of updates, merges, resets and compactions: |cands| <= k_cap <= k_max, acc and rej within u16, q8 in -1..255, coverage in [0, 1]. |
| `TableRuns.RunEntriesOk` | core/store.py:357-433 | Over every run of the store, every entry of the table is within these ranges. |
| `EntryRuns.CountBounded` | core/store.py:144-154 | Neither count of a token exceeds its updates since the last reset, accepted and rejected alike. |
| `EntryRuns.CountExact` | core/store.py:144-154 | Both equal that number if the token is never evicted, no compaction runs and the counter does not saturate. |
| `Counting.CountsBounded` | core/store.py:357-424 | Over any run and from any moment on: an accepted (rejected) count at a context grows by at most the applied positions with those last tokens, that segment and scope that realized (refused) the token, and it grows from zero where the context was absent, or stale when next seen. Positions are read off the events alone. |
| `Counting.CountsExact` | core/store.py:357-424 | It grows by exactly that number while nothing is compacted or evicted, no counter saturates and no file of the scope is edited; candidates are safe while the context mentions no more tokens than the entry has room for. |
| `Counting.ExactlySeen` | core/store.py:398-424 | From an empty store, with at most k_init tokens mentioned in the context, the counts are those numbers. |
| `Correctness.CountsTellTheTruth` | core/store.py:377-429 | The same of the ledger under its hashed keys, for both counters. |
| `Counting.FileIsObserved` | core/store.py:370-400 | Every entry belongs to no file or to one whose code was observed in that very context. |
| `Counting.OnlyCodeGoesStale` | core/store.py:399-400 | Entries of other segments than code are fresh in every reachable store: edits never silence them. |
| `LockStep.RunInLockStep` | core/store.py:324-375 | Over every run of harvest, drain, bump and compact, with FIFO eviction and automatic compaction: under a naming without collisions the store holds, in the same order, exactly what the store keyed by exact contexts holds. |
| `LockStep.LookupInLockStep` | core/store.py:248-289 | After any run, every lookup finds the same evidence through the hashed keys as through the exact contexts. |
| `LockStep.MirrorEvict` | core/store.py:362-365 | FIFO eviction removes the same context from both tables. |
| `LockStep.MirrorCompacted` | core/store.py:558-576 | Compaction keeps and drops the same contexts in both tables. |
| `Correctness.AnswersLikeTheExactTable` | core/store.py:248-289 | After any ledger operations, a posterior answers a lookup by signatures iff it answers the same query in the table keyed by exact contexts, and there is only one such answer, provided no two contexts spoken about share a key. |
| `Answers.SigMatchesAre` | core/store.py:265-285 | Probing with a context's signature stack finds exactly the fresh entries of the right segment for that context. |
| `Evidence.MatchesAreEvidence` | core/store.py:265-285 | A lookup reads an entry iff it stands at an active order within 2..8 and an active tier, under the query's own last tokens, scope and segment, and its stamp equals the counter of its file; each is read once, by order and then by tier. |
| `Evidence.LookupReadsEvidence` | core/store.py:265-285 | The same of the lookup through rolling signatures and hashed keys. |
| `Evidence.AnswerReadsEntries` | core/store.py:188-201 | The sources that are blended give, token by token, the counts and codes of the matched entries, an unknown code as 255. |
| `Evidence.EvidenceIsCurrent` | core/store.py:278-281 | After any run, an entry that a lookup reads belongs to no file, or its file was edited in its scope a multiple of 65536 times since its last stamp. |
| `Evidence.EditsSilence` | core/store.py:237-281 | After 1 to 65535 edits of a file, no lookup reads an entry of that file and scope until it is stamped again. |
| `Answers.BaseMatchesAre` | core/store.py:257-276 | Probing with scope and segment parts folded in advance finds what probing with whole keys finds. |
| `Answers.AnswerUnique` | core/store.py:286-289 | A table determines its posterior: the order in which entries list candidates cannot show. |
| `Answers.AnswersIffObserved` | core/store.py:286-289 | A lookup answers iff some matched entry holds a candidate with a positive count. |
| `Answers.BreaksAreListed` | core/store.py:319-321 | The listing holds every break of the offsets asked for exactly once, in ascending order. |
| `Epochs.StoreFreshIff` | core/store.py:237-245 | For every entry of the hashed table after any run of the store: it stands for a context, and it passes the epoch check iff its domain is 0 or the bumps of its own (scope, file) since its last stamp number a multiple of 65536. Stamps and bumps are read off the trace of the operations; other bumps never matter. |
| `Epochs.StaleWriteStartsOver` | core/store.py:366-367 | In a table under any keys, hashed or exact: after a write to a stale entry only tokens of that very observation are left, and only the realized one has an accepted count, of at most 1. |
| `Epochs.WrittenIsFresh` | core/store.py:366-375 | A written entry is fresh and belongs to the file it was observed in last. |
| `Bounds.EventsConserved` | core/store.py:324-355 | Offered = applied + dropped + queued; applied and queued events are an in-order subsequence of the offered ones; the pending ones are the newest, at most `queue_cap`. |
| `Bounds.RunBounded` | core/store.py:361-365 | The hot table never exceeds a positive `max_entries`. |
| `Eviction.ListedAsEntered` | core/store.py:361-370 | Over any run the table lists its contexts in the order in which they last entered it, compactions included. |
| `Eviction.FirstInFirstOut` | core/store.py:361-365 | A new context in a full table costs exactly the context that entered first; all others keep their entries. |
| `Bounds.DrainApplies` | core/store.py:343-349 | A drain applies exactly the oldest events up to its limit, and without limit all of them. |
| `Bounds.CompactsInTime` | core/store.py:350-354 | With automatic compaction every n events, fewer than n ever wait for one. |
| `Bounds.CompactedIsLive` | core/store.py:558-576 | After compaction every entry is fresh and still holds a counted candidate. |
| `Bounds.CompactionDivides` | core/store.py:558-576 | An entry survives a compaction iff it is fresh and some candidate is counted at least 2^decay_shift times; exactly those candidates stay, their counts divided by it, rounded down. |
| `Bounds.SixteenCompactionsEmpty` | core/store.py:564-575 | Sixteen compactions in a row empty a hot table whose entries are within their ranges. |
| `TableRuns.AnyStoreWearsDown` | core/store.py:558-576 | Whatever happened to a store before, sixteen compactions in a row leave its hot table empty. |
| `Chunking.StepsBuildStreamTable` | core/store.py:398-433 | In positive mode, events that report a stream in any pieces touch the table token by token exactly as the stream does. |
| `Chunking.ChunkingIndependent` | sim/proposers.py:155-172 | Two ways of cutting one stream into verify steps leave the same hot table: keys, order, counts, capacities, FIFO eviction included. |
| `Spans.DivergenceIsPrefix` | core/store.py:541-546 | The divergence is the length of the common prefix, and the bodies differ right after it. |
| `SpanHistory.RevisedOk` | core/store.py:531-550 | Revising a span keeps its breaks tied to content and history: a new body inherits only breaks before the first difference, a stale one none, so each count is still backed by rejections along the new body. |
| `SpanHistory.OutcomeOk` | core/store.py:435-449 | Recording an outcome adds one to a break only when that very event followed the current body and was rejected there, so counts stay backed by distinct events. |
| `SpanHistory.BreaksFollowContent` | core/store.py:435-550 | In every reachable state each break offset lies inside its span, and its count is at least 1 and at most the number of applied events whose draft ran along the span's current tokens up to it and was rejected exactly there. |
| `SpanHistory.BreakHasWitness` | core/store.py:435-447 | So every break has a witness: an applied event whose draft equals the span's tokens through that offset, accepted up to it and rejected there. |
| `SpanHistory.RunsPartitionSessions` | core/store.py:482-555 | For each session, the closed runs followed by the open one spell out, token by token with segment, what the session's applied events realized. |
| `SpanHistory.RunsAreShaped` | core/store.py:493-501 | Every run has one segment, length between 1 and max(1, `span_max_len`), and the signatures of the context just before its first token. |
| `SpanChoice.FindSpanIsBest` | core/store.py:454-479 | A span is found iff some key of an active tier and order holds a fresh one of the segment; the one found has the highest count, then the longest body, then the smallest key among all of them. |
| `SpanChoice.ProposesTheBest` | core/store.py:291-321 | What is proposed is the body, the count and every break of that span, from version 2 on. |
| `SpanEffects.FlushRegisters` | core/store.py:505-550 | A run too short leaves no trace; a long enough one leaves, under every active span order and tier, a span whose body is the longer of the old body and the run; no other span changes. |
| `SpanEffects.FlushCounts` | core/store.py:519-550 | Afterwards the span is fresh, and its count has grown by one for each order and tier that makes the key, from zero if it was stale. |
| `SpanEffects.FlushKeepsTrueBreaks` | core/store.py:531-548 | A fresh span keeps exactly the breaks that the new body does not contradict, a stale one none. |
| `SpanEffects.OutcomeCounts` | core/store.py:384-449 | Besides its tokens an event changes only the best span of the context its draft started in: one more break where a draft along the body was rejected, one more use where all of it was accepted, else nothing. |
| `SpanEffects.PatchIsMostSpecific` | core/store.py:393-427 | A break points to the entry written at the rejected position at the longest active order and the most specific active tier, or nowhere if none was written. |
| `SpanEffects.TrackedFile` | core/store.py:482-503 | A run belongs to the file of its last token that has one. |
| `SpanEffects.CompactionDividesSpans` | core/store.py:578-594 | Compaction keeps exactly the fresh spans counted at least 2^decay_shift times, with counts and breaks divided by it. |
| `Correctness.BreaksTellTheTruth` | core/store.py:435-550 | The break property, offsets and counts, holds of the spans of every ledger run, with compactions and bumps wherever they fall. |
| `Correctness.RunsSpellOutSessions` | core/store.py:482-555 | The partition property holds of every ledger run. |
| `Arenas.SpanArena.Add` | core/arena.py:68-75 | Returns where a block with this content lies; the token array stays a concatenation of whole blocks, existing blocks stay in place, nothing is stored twice. |
| `Arenas.BlockSlice` | core/arena.py:77-78 | Slicing at a block gives back exactly the block. |
| `Arenas.SpanArena.Compact` | core/arena.py:86-93 | Every live span keeps its tokens at its new offset, only live bodies remain, each stored once, and the array never grows. |
| `Arenas.DistinctFit` | core/arena.py:86-93 | Distinct blocks taken from a list of blocks need no more room than the list. |
| `Arenas.SpanArena.Load` | core/arena.py:98-101 | Loading keeps the blocks where they were and forgets the dedup table. |
| `LedgerStores.LedgerStore.BumpEpoch` | core/store.py:242-245 | Advances one 16-bit counter; the table is untouched. |
| `LedgerStores.LedgerStore.GetOrCreate` | core/store.py:357-375 | On heap objects: evicts and creates, resets a stale entry, or moves a fresh one to the file last observed. |
| `LedgerStores.LedgerStore.ApplySite` | core/store.py:406-429 | Applies one position to every active order and tier, and returns the key of the longest order's most specific tier as the correction entry. |
| `LedgerStores.LedgerStore.FlushRun` | core/store.py:505-550 | Closes a run: its body enters the arena and is registered under every span order and tier, by content as specified. |
| `LedgerStores.LedgerStore.TrackRun` | core/store.py:482-503 | Appends a token to the session run, flushing first where the segment changes or the run is full. |
| `LedgerStores.LedgerStore.FlushAllRuns` | core/store.py:552-555 | Closes every open run in insertion order. |
| `LedgerStores.LedgerStore.FindSpanEntry` | core/store.py:454-479 | Finds the best fresh span of the segment over all orders and active tiers: count, then length, then smaller key. |
| `LedgerStores.LedgerStore.LookupSpan` | core/store.py:291-321 | Returns the best span's tokens and its breaks in ascending order, from version 2 on. |
| `LedgerStores.LedgerStore.RecordOutcome` | core/store.py:435-449 | Counts a break at the rejected offset, or a success, on the span the draft started from. |
| `LedgerStores.LedgerStore.Apply` | core/store.py:377-452 | One event does to hot entries, spans and runs on the heap what the value-level functions say; aliasing and caches do not show. |
| `LedgerStores.LedgerStore.Harvest` | core/store.py:324-338 | Enqueues; a full queue loses its oldest event, a disabled one everything, and the drop counter says how many. |
| `LedgerStores.LedgerStore.Drain` | core/store.py:343-355 | Applies up to the given number of events in order and compacts when due. |
| `LedgerStores.LedgerStore.CompactHot` | core/store.py:558-576 | The surviving entries, decayed, keep their order. |
| `LedgerStores.LedgerStore.CompactStore` | core/store.py:558-596 | Compaction of both tables and of the arena; each distinct live body is then stored exactly once and nothing else is. |
| `LedgerStores.LedgerStore.Lookup` | core/store.py:248-289 | Blends the entries that the signatures reach; the answer is the table's answer and only caches change. |
| `LedgerStores.LedgerStore.Snapshot` | core/store.py:599-643 | Reading the document back in order gives exactly the tables it was written from. |
| `LedgerStores.LedgerStore.Load` | core/store.py:645-675 | The store stands for what the document reads as; the arena consists of the same blocks. |
| `LedgerStores.LedgerStore.Perform` | core/store.py:324-596 | Every operation of the store refines the corresponding step of the value-level ledger. |
| `Documents.ReadBack` | core/store.py:610-657 | Writing a hot table in its own order and reading it back is the identity, order included. |
| `Documents.ReadSpansBack` | core/store.py:623-671 | Likewise for spans over the same arena tokens. |
| `Ledgers.HotHalf` | core/store.py:377-433 | The hot half of a ledger run is a run of the hot store alone: spans never influence it. |
| `Ledgers.SpanHalf` | core/store.py:377-596 | The span half is a run of span operations alone: queueing and hot entries never influence it. |
| `Ledgers.AgreeForever` | core/store.py:599-606 | Without automatic compaction, ledgers that agree in tables, queue and runs agree after all further operations. |
| `Reloads.Reload` | core/store.py:599-675 | Snapshot and load into a new store give a store that agrees with the old one, when nothing is queued and no run is open. |
| `Reloads.PerformBoth` | core/store.py:324-596 | Two stores that share no object go through any operations side by side, each as specified. |
| `Reloads.ReloadedStoreAgrees` | core/store.py:599-675 | After any further operations the reloaded store returns the same posterior and the same span proposal as the original, although candidate order and arena offsets may differ. |
| `Drafts.DraftTree.Add` | core/types.py:255-258 | Appends a node and returns its index. |
| `Drafts.ChainReadsBack` | core/types.py:263-268 | A tree grown as one chain reads back as that chain. |
| `Drafts.OracleAccept` | sim/replay.py:24-52 | Child lists and walk return the accepted path and the rejected token of the first-match walk. |
| `Drafts.AcceptedIsTruth` | sim/replay.py:24-52 | The accepted path is a stretch of the truth and no longer than the tree has nodes. |
| `Drafts.RejectedIsWrong` | sim/replay.py:49-50 | Where the truth goes on, the rejected token is not what comes next. |
| `Drafts.RejectedIsFirstDrafted` | sim/replay.py:45-52 | No child of the node where the walk stops carries the next token; the first of its children is the rejected token, and there is none iff that node is a leaf. |
| `Drafts.AcceptedIsLongest` | sim/replay.py:33-52 | On a sibling-distinct tree no root path follows the truth further than the accepted one. |
| `Drafts.LongestIffUnshadowed` | sim/replay.py:24-52 | On any tree, the accepted path is the longest one for every truth iff each node has a twin with the same path that is reached through first equal siblings only. |
| `Drafts.RepeatedSiblingsMislead` | sim/replay.py:45-48 | With repeated siblings this fails: a three-node tree on which the first-match walk misses the longest path. |
| `Drafting.CorrectionIsLikeliest` | core/types.py:178-182 | The correction is a candidate of maximal p_hat, the smallest token among equals. |
| `Drafting.Correction` | core/types.py:178-182 | The maximum is found in one pass. |
| `Drafting.DraftIsGood` | sim/proposers.py:93-152 | Whatever the store answers: at most `budget` nodes, parents before children, at most two children per node, siblings with different tokens. |
| `DraftLaws.DraftFollows` | sim/proposers.py:93-152 | Read off the nodes: the span is laid down up to the budget or its first heavy break, where token and correction become siblings; below it every node carries the first choice of the answer at its own path or, where that is mostly rejected, the correction, beside the first choice as a leaf; and the draft ends only where the budget, the expected acceptance, the evidence or a correction that is no other token ends it. |
| `Proposers.LedgerProposer.LayDown` | sim/proposers.py:99-115 | A span is laid down node by node until the budget or a heavy break ends it. |
| `Proposers.LedgerProposer.Chain` | sim/proposers.py:117-152 | The extension loop drafts what the store's answers prescribe, including leaf and correction at reject-dominant positions. |
| `Proposers.LedgerProposer.Propose` | sim/proposers.py:93-152 | The tree is the draft prescribed by the table's answers and span proposal for the current context and follows them node by node; it is a good tree within the budget, and reading leaves the table as it was. |
| `Proposers.LedgerProposer.Harvest` | sim/proposers.py:155-172 | The store goes through exactly one offer of the outcome (stripped in positive mode) and one full drain. |
| `Replays.MapFiles` | sim/replay.py:138-146 | Each position gets the file of the first file edit at or after it, 0 if there is none. |
| `Replays.FileOfIs` | sim/replay.py:138-146 | The file of a position is that of the earliest file edit at or after it. |
| `Replays.StepIsLossless` | sim/replay.py:160-181 | Any topologically ordered tree: the outcome realizes the next stretch of the stream, accepted_len <= len(draft) <= accepted_len + 1, a rejected token differs from the bonus, and the end of the stream is no rejection. |
| `Replays.StepTakesTheWalk` | sim/replay.py:160-170 | A step accepts all of the oracle's walk but for the token kept as bonus, and reports a rejection iff the walk stopped above further nodes before the end of the stream. |
| `Replays.ReplayIsLossless` | sim/replay.py:149-205 | The concatenated `realized()` of all outcomes is the request's stream. |
| `Replays.ReplayReportsRows` | sim/replay.py:167-181 | The top-k ids, codes and segments of all outcomes, put together, are those of the request. |
| `Replays.ReplayConserves` | sim/replay.py:193-199 | Accepted tokens + steps = tokens, and accepted tokens <= drafted tokens. |
| `Replays.ReplayIsHonest` | sim/replay.py:160-181 | Every outcome of a replay has the shape above, for any trees. |
| `Replays.SegmentsAddUp` | sim/replay.py:193-197 | The per-segment step and token counts add up to the totals. |
| `Replays.BudgetBoundsSpeed` | sim/replay.py:149-205 | With at most `budget` nodes per tree, tokens <= steps * (budget + 1). |
| `Replays.ReplayReportsStream` | sim/replay.py:167-181 | Without file edits the outcomes report the stream with eight tokens of context each. |
| `Replays.ReplayBuildsStreamTable` | sim/replay.py:131-205 | From any ledger with nothing queued: in positive mode without file edits, what a replay adds to the table is a function of the request. Trees, budget and step boundaries leave no trace. |
| `Replays.ReplaysBuildStreamTable` | sim/replay.py:128-209 | The same for a list of requests: the table after all of them is the old one touched by their streams in order. |
| `Simulators.VerifyStep` | sim/replay.py:161-181 | Oracle, truncation and slices build the outcome of the step. |
| `Simulators.FireEdits` | sim/replay.py:184-191 | Exactly the events passed by the step fire, in order, each file edit bumping the session and the repository scope. |
| `Simulators.RequestMetrics.Record` | sim/replay.py:193-199 | The counters stay those of the log. |
| `Simulators.ReplayRequest` | sim/replay.py:131-208 | One request, for any proposer: the loop ends, the log is a replay of the proposed trees, the metrics are its tallies; a ledger proposer stays within tokens <= steps * (budget + 1) and its store is told exactly the outcomes and edits. |
| `Simulators.RunReplay` | sim/replay.py:128-209 | A list of requests with one proposer: each log is a replay of the trees proposed for that request, each metrics object tallies its own log, and a ledger store is told everything in order. |
| `Simulators.PositiveReplay` | sim/replay.py:128-209 | End to end: whatever the drafting parameters and the budget, a fresh positive proposer that replays a list of requests without file edits ends up with the hot table that the requests determine. |

## Left out

- JSON, gzip and files: a snapshot is a record of sequences and maps; the schema number is not modelled.
- Digests (`stable_u64`, the arena's content hash): ids are given, content identity is equality.
- Floating-point rounding, the lookup tables for powers and exponentials, and the value of the exponential.
- Counters that only report (`evictions`, `compactions`, `stale_skips`, `lookups`, `hits`, sizes in bytes): never read by the store.
- Negative `accepted_len`: the model takes a natural number, as every producer of events in the repository delivers one.
- Spans.Span: a span is shown fresh after each flush and only fresh ones are found, but no theorem counts the edits since.
- Spans.PatchKey: that the entry it names still exists is not claimed, since it may have been evicted.
- Spans.CompactedSpans: a map, so the order of the span table, which nothing observable depends on, is not kept.
- LedgerStores.LedgerStore.Load: candidates may come in any order, where the code reads them in the order of their decimal spelling.
- LedgerStores.LedgerStore.DecaySpan: the breaks are halved in one comprehension where the code deletes the dead ones in a second loop.
- Simulators.RunReplay: `totals` and the report rows, which only add up the metrics of the requests.
- Simulators.Proposer.Other: the internal state of other proposers is not modelled, only the tree returned at each request and position.
- `TokenRecyclingProposer`, `sim/dense_key.py`: the first walks a fixed table, the second rests on libraries that are not part of this model.
- `sim/convert.py`: its result (arrays of equal length, events in order of position) is the precondition `Request.Ok`.
- `recurrence_stats`: a histogram over the lengths that `Extend` returns.
- `sim/synth.py`, `sim/gates.py`, `sim/bench_d3.py`, `analysis/`, `scripts/`, `bench/`, `vllm_plugin/`: generators, command lines, plots and thresholds.
- Running times, hit rates and pass marks: empirical.
