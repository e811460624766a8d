# Joshua, modelled in Dafny

A model of the parts of Joshua whose correctness is a statement about whole
traces, whole request histories or every cut of a stream, with proofs of those
statements.

- **Expert-cache replay** (`CacheTrace`, `LruTier`, `HotSet`, `LruReplay`,
  `LruTheorems`, `Belady`, `BeladyOptimal`, `BeladySkipping`, `BeladyBounds`,
  `BeladySweep`, `StaticTop`, `TwoTier`, `TwoTierTheorems`, `ReplayEffects`):
  the LRU tier as two inverse maps with a protected hot set, the hot-set
  selector, and the LRU, static, Belady and two-tier replays.
  Belady's replay is optimal among schedules that insert what they miss; plain
  LRU has the inclusion property; reads, uploads and evictions balance.
- **Request router** (`RouterPick`, `RouterOrder`, `RouterMachine`,
  `RouterTheorems`, `RouterWakeups`, `RouterRuns`, `RouterRetry`, `SseStream`,
  `SseLines`, `RoutedStream`): the worker choice, the interleaved steps of
  reservations, releases, refreshes and queued requests as a state machine, the
  retry loop, and the event-stream forwarding.
- **KV cache and cached attention** (`Indices`, `KvRows`, `KvCache`,
  `KvRuns`, `AttentionRow`, `AttentionLayout`, `CachedAttention`): head-strided buffers
  refine a list of rows per head with amortised growth, and the attention of a
  sequence does not depend on how it is cut into calls.
- **Affinity directory** (`Affinity`), **draft sessions** (`DraftModel`),
  **streamed statistics** (`Moments`, `RunningMoments`, `Metrics`,
  `ParityCompare`) and **causal conv1d** (`Conv1d`, `ConvGrid`).

Objects the source updates in place are classes whose methods equal a
specification function of the old state; the laws are lemmas about those
functions. `dafny verify dfyconfig.toml` checks everything.

Three properties one might expect are false of the code, and are stated with
their exact condition:

- What the SSE framer forwards does depend on the cut, exactly when the last
  blank line is preceded by one more newline (`SseStream.CutIndependentIff`,
  with the offending cut in `SseStream.TripleDependsOnCut`).
- Belady's replay is not a bound for schedules that may skip an insert: a
  decode trace on which it is beaten is in `BeladySweep.BypassBeatsBelady`
  and `BeladySweep.SweepIsTrace`. It is one exactly when the comparison it
  leaves out, skipping a key due later than every resident, would gain no hit
  on the trace (`BeladyBounds.BoundsSkippingIff`), and always is one for
  schedules with a slot less (`BeladySkipping.OneMoreSlotBounds`).
- The Vulkan launch writes every output exactly once, and nothing else,
  exactly when the outputs and the lanes of the grid fit 31 bits
  (`ConvGrid.LaunchExact`): with the operator's constants, for at most
  2147450880 outputs (`ConvGrid.OperatorLaunch`). At 2^31 outputs it writes
  none of them (`ConvGrid.NothingWritten`).

## Model

| member | source | states |
|---|---|---|
| CacheTrace.LookupsOncePerChunk | src/cache_sim.rs:158-176 | the lookups of a call hold each key exactly once per chunk that routes to it |
| CacheTrace.PrefillObservations | src/cache_sim.rs:183-211 | a prefill's observations hold each key once per chunk whose last row routes to it |
| CacheTrace.LookupsInOrder | src/cache_sim.rs:158-176 | the lookups go layer by layer and chunk by chunk, one group for each chunk with visits, each group its experts once, in the order they are first seen |
| CacheTrace.SeedsAreFinalRows | src/cache_sim.rs:215-235 | a prefill seeds each layer with exactly the experts of the last row of its last chunk |
| LruTier.TouchKeeps | src/cache_sim.rs:272-281 | a touch keeps the resident keys, their number, and that none is listed twice |
| LruTier.InsertKeeps | src/cache_sim.rs:285-311 | an insert adds at most its key, evicts at most one key and never a hot one, and balances uploads, evictions and residents |
| LruTier.RefusedOnlyWhenAllHot | src/cache_sim.rs:285-311 | an insert is refused only when the key is absent and a full tier holds nothing but hot keys; nothing else changes then |
| LruTier.RemoveKeeps | src/cache_sim.rs:313-317 | a removal takes out exactly its key |
| LruTier.Lru.constructor | src/cache_sim.rs:254-265 | a new tier is empty, with nothing hot |
| LruTier.Lru.Touch | src/cache_sim.rs:272-281 | on the two inverse maps, exactly the touch of the recency list |
| LruTier.Lru.OldestCold | src/cache_sim.rs:290-297 | finds the oldest resident key outside the hot set, or that there is none |
| LruTier.Lru.Insert | src/cache_sim.rs:285-311 | on the two inverse maps, exactly the insert of the recency list, with its counters |
| LruTier.Lru.Remove | src/cache_sim.rs:313-317 | on the two inverse maps, exactly the removal from the recency list |
| LruTier.Lru.SetHot | src/cache_sim.rs:319-321 | replaces the protected set and nothing else |
| HotSets.ObserveAllCounts | src/cache_sim.rs:342-347 | recording adds to each key's count its occurrences and stamps it with the current step |
| HotSets.HotSet.Record | src/cache_sim.rs:342-347 | the loop records every key once per occurrence |
| HotSets.HotSet.BeginDecode | src/cache_sim.rs:350-353 | advances the step and says whether a refresh is due |
| HotSets.SelectIsTop | src/cache_sim.rs:356-367 | the selection has at most `budget` distinct observed keys, fills the budget if it can, and no unselected key outranks a selected one |
| HotSets.HotSet.Choose | src/cache_sim.rs:356-367 | returns that selection, in rank order |
| LruReplay.SimulateLru | src/cache_sim.rs:454-512 | the report of the loop is that of the events of the trace replayed on an empty tier |
| LruReplay.SlotsFixed | src/cache_sim.rs:454-512 | no event changes the number of slots |
| LruTheorems.RunBalanced | src/cache_sim.rs:454-512 | after every history of events uploads = evictions + residents, within the slots |
| LruTheorems.LruInclusion | src/cache_sim.rs:253-322 | without hot sets, what n slots hold is a subset of what m >= n slots hold after every event, and hits and uploads compare accordingly |
| LruTheorems.LruMoreSlots | src/cache_sim.rs:454-512 | over every trace, more slots never lower decode or prefill hits nor, from one slot on, raise uploads |
| LruTheorems.HotSetStaysResident | src/cache_sim.rs:285-321 | with a hot budget of at most the slots every hot key is resident from its refresh to the next, and with a smaller budget nothing is ever refused |
| LruTheorems.TraceWithinBudget | src/cache_sim.rs:461-477 | every refresh of a replay protects at most the budget |
| LruTheorems.LruHotGuarantee | src/cache_sim.rs:461-477 | the hot-set guarantee for every policy and every prefix of every trace |
| ReplayEffects.InsertTakes | src/cache_sim.rs:285-311 | an insert makes its key the newest; in a full tier it takes the place of the oldest key that is not hot, the others keep their order, and it is left out exactly when there is no slot or every resident is hot |
| ReplayEffects.TouchMoves | src/cache_sim.rs:272-281 | a touch moves the key behind all others, which keep their order |
| ReplayEffects.LruEffects | src/cache_sim.rs:469-507 | a seed, an inserting lookup and a hit bring their key in, a miss that does not insert changes nothing, a refresh protects exactly its keys and holds them all when they fit |
| ReplayEffects.LruCounts | src/cache_sim.rs:478-492 | each phase's visits are its lookups and its hits those whose key was resident when they came |
| ReplayEffects.RefreshSchedule | src/cache_sim.rs:350-353 | a refresh precedes exactly every 64th decode call, when there is a budget |
| ReplayEffects.HotBudgetIsShare | src/cache_sim.rs:461-464 | the hot budget is the share of the slots, rounded down |
| Belady.NextVisitIsFirst | src/cache_sim.rs:596-607 | the next visit is the first event on the key from there on, or the end |
| Belady.NextUses | src/cache_sim.rs:596-607 | the backward scan stores each event's true next visit |
| Belady.OneEvent | src/cache_sim.rs:609-640 | one event keeps every stored next visit true and is the step of the farthest-next-visit cache |
| Belady.SimulateBelady | src/cache_sim.rs:562-648 | the report is that of the cache that evicts the key visited last |
| Belady.EventEffects | src/cache_sim.rs:609-644 | for every event list: a seed or inserting lookup whose key is looked up again makes it resident, any other event and a hit leave the residents alone, a key leaves only a full cache and is then looked up no sooner than any other resident; uploads and evictions count the keys that enter and leave |
| ReplayEffects.BeladyCounts | src/cache_sim.rs:609-625 | each phase's visits are its lookups and its hits those whose key was resident when they came |
| BeladyOptimal.AheadRun | src/cache_sim.rs:562-648 | at every event and horizon a schedule holds at most as many due keys as Belady plus Belady's lead in hits |
| BeladyOptimal.BeladyIsOptimal | src/cache_sim.rs:562-648 | no schedule of at most `slots` keys that inserts exactly what it misses gets more hits |
| BeladyOptimal.BeladyBalanced | src/cache_sim.rs:562-648 | uploads = evictions + residents after every event |
| BeladyOptimal.EventsAllInsert | src/cache_sim.rs:567-594 | decode-only traces, and traces whose prefills insert, meet the theorem's hypothesis |
| BeladyOptimal.LruNeverBeatsBelady | src/cache_sim.rs:454-512 | on those traces plain LRU never gets more hits than Belady |
| BeladySweep.BypassBeatsBelady | src/cache_sim.rs:562-648 | five visits on which a schedule with one slot that skips an insert gets two hits and the replay one |
| BeladySweep.SweepIsTrace | src/cache_sim.rs:562-594 | those visits are the events of a decode trace |
| BeladySkipping.PatientIsOptimal | src/cache_sim.rs:562-648 | no schedule of at most `slots` keys, skipping or not, beats the replay that also skips a key due no sooner than every resident |
| BeladyBounds.BoundsSkippingIff | src/cache_sim.rs:562-648 | the replay bounds every skipping schedule at its slot count if and only if that comparison would gain it no hit |
| BeladyBounds.BoundsUnlessDueLast | src/cache_sim.rs:626-640 | in particular whenever no full miss brings in a key due no sooner than every resident |
| BeladySkipping.OneMoreSlotBounds | src/cache_sim.rs:562-648 | every skipping schedule of at most n keys gets at most the hits of the replay at n + 1 slots |
| StaticTop.SimulateStatic | src/cache_sim.rs:514-551 | the report counts the visits to the most visited keys |
| StaticTop.StaticTopIsBest | src/cache_sim.rs:514-551 | no fixed set of at most `slots` keys gets more decode hits |
| TwoTier.Pools.Prefetch | src/cache_sim.rs:718-723 | a host prefetch touches or reads and inserts |
| TwoTier.Pools.Upload | src/cache_sim.rs:726-742 | an upload takes the key from the host or the disk, and with `exclusive` out of the host |
| TwoTier.Pools.Lookup | src/cache_sim.rs:771-802 | a routed key is served by the first tier that has it, and moves up |
| TwoTier.SimulateTwoTier | src/cache_sim.rs:709-824 | the report is that of the trace's tier operations from empty tiers |
| TwoTierTheorems.TiersConserve | src/cache_sim.rs:709-824 | after every operation: visits split exactly into device, host and disk; uploads = device evictions + residents; with a host slot every host insert is one counted disk read; with `exclusive` the tiers share no key |
| TwoTierTheorems.DecodeOnlyReads | src/cache_sim.rs:709-824 | on decode-only traces with a host slot no upload reads the disk; without one every decode disk read is an upload |
| ReplayEffects.TwoTierCounts | src/cache_sim.rs:771-797 | each phase counts its own lookups, by the tier that had the key when they came |
| ReplayEffects.SpeculateEffects | src/cache_sim.rs:718-723 | advice makes the key the host's newest, reading it from disk exactly when the host lacked it, and is skipped for a key on the device when the tiers are exclusive |
| ReplayEffects.SeedEffects | src/cache_sim.rs:726-742 | a seed brings the key onto the device; it counts as an upload when it is placed and as a disk read when no tier had it |
| ReplayEffects.SeedOnHost | src/cache_sim.rs:726-742 | a key uploaded to the device is also the host's newest, or with exclusive tiers leaves the host, which gave up its place for it all the same |
| ReplayEffects.PrefillRouteEffects | src/cache_sim.rs:771-797 | a prefill lookup renews the key where it is, and reads it into the host from disk |
| ReplayEffects.ComposedOps | src/cache_sim.rs:744-802 | a decode lookup off the device moves keys as a prefill one and then a seed; a re-acquired key is advised and then seeded |
| ReplayEffects.PreviousIsLastDecode | src/cache_sim.rs:761-819 | what is speculated on is the routing of the last decode call before |
| ReplayEffects.EveryReplayCountsTheSame | src/cache_sim.rs:454-824 | whatever the policy, slots and tiers, all four replays of a trace count the same lookups in each phase |
| RouterPick.WorkUnits | src/coordinator.rs:605-638 | input bytes plus four times the output budget, clamped to between 1 and 2^24 units |
| RouterPick.MoreLoadNeverAdmits | src/coordinator.rs:893-966 | a worker that refuses still refuses with more load |
| RouterPick.Choose | src/coordinator.rs:893-1002 | the scan keeps the least-scored open worker and the reason if there is none |
| RouterPick.OneTurnEach | src/coordinator.rs:893-941 | the rotated scan looks at every worker exactly once |
| RouterPick.TryPick | src/coordinator.rs:834-1061 | the answer is a least-scored open worker, or says truly why there is none |
| RouterPick.OpenIsAdmitted | src/coordinator.rs:934-966 | an open worker is healthy, untried, below its caps, and its known context fits |
| RouterPick.ChosenIsMinimal | src/coordinator.rs:967-1002 | the choice is minimal in (context unknown, discounted work per slot, load) |
| RouterPick.BusyMeansFull | src/coordinator.rs:1043-1060 | Busy means candidates exist and each of them is full |
| RouterPick.AffinityCostIsBounded | src/coordinator.rs:967-1002 | the undiscounted score of the choice exceeds a same-class candidate's by at most a fifth of the request's units over its slots |
| RouterOrder.OpenIff | src/coordinator.rs:893-966 | over the raw reports and counters: a worker is open if and only if it is healthy, untried, serves the model on the path, its known context fits, and it is below its model's slots and a configured cap |
| RouterOrder.FiguresExist | src/coordinator.rs:934-988 | every worker with a report has the model, slots, work, outside load and context the pick reads: the first entry of the model's own, else the whole worker's |
| RouterOrder.PickedOwesLeast | src/coordinator.rs:967-1002 | over the raw counters, against every open worker: the pick has a known context if any has, then owes the least work per slot less the saving, then has the least load |
| RouterOrder.PickedHasLeastWork | src/coordinator.rs:967-988 | without saving or outside load, (work + units) of the pick times the other's slots is at most the other's times the pick's |
| RouterOrder.MoreWorkNeverPreferred | src/coordinator.rs:967-988 | a worker picked with more outstanding work was already minimal with less |
| RouterPick.PickedIsUntried | src/coordinator.rs:938-941 | a picked worker exists and was not tried |
| RouterPick.TryPickAudio | src/coordinator/jobs.rs:29-78 | the first able, untried, idle worker below its cap in turn, or the true reason there is none |
| RouterTheorems.AccountingStep | src/coordinator.rs:1003-1041 | every step keeps the counters equal to the totals over guards not yet decremented, with no zero entry left |
| RouterTheorems.DropNeverSaturates | src/coordinator.rs:410-438 | no decrement of a drop goes below zero |
| RouterWakeups.WakesStep | src/coordinator.rs:1063-1129 | every step keeps: while either registration of a request stands unnotified and no notification is pending, what it found full still turns it away |
| RouterWakeups.BoundedStep | src/coordinator.rs:1103-1108 | every step keeps the queue count equal to the places held, and the places within the depth |
| RouterRuns.RunInvariant | src/coordinator.rs:1003-1129 | structure, accounting, wake-ups, queue bound and worker caps hold in every state of every interleaving |
| RouterRuns.NoLostWakeups | src/coordinator.rs:1063-1129 | a request waiting in the queue or inside a pick, on a registration not notified and with no notification pending, is turned away by every worker as things stand |
| RouterRuns.QueueIsBounded | src/coordinator.rs:1103-1108 | the number of waiting requests never exceeds the queue depth |
| RouterRuns.SlotsAreAccounted | src/coordinator.rs:1003-1041 | in every reachable state the counters are the totals over live guards and a configured cap is kept |
| RouterRuns.ModelsStayWithinCaps | src/coordinator.rs:943-966 | while reports keep their figures every model stays within its own cap |
| RouterRetry.RetriedIffNothingDelivered | src/coordinator.rs:1330-1465 | an attempt is retried if and only if the client got nothing of it; the retry is marked safe exactly when the worker cannot have run the request |
| RouterRetry.SlotIsUntried | src/coordinator.rs:1090-1129 | a slot is on a worker of the list that was not tried, by what the pick answers |
| RouterRetry.ForwardOnce | src/coordinator.rs:1224-1294 | forwarding an attempt gives the client what it delivers and the class of the attempt: whole and refused answers are relayed, errors of the coordinator's own become one notice; a retry leaves the client as it was |
| RouterRetry.Route | src/coordinator.rs:1547-1617 | over picks that answer truthfully: no worker is tried twice, so there are at most as many forwards as workers; the client gets what the last attempt delivered or one notice, and nothing of any attempt before; no embedding or transcription that may have run is forwarded again; a chat or completion is turned away only when no slot is had; "workers busy" only if every attempt was an admission refusal |
| RouterRetry.OnlyTheLastAttemptCounts | src/coordinator.rs:1547-1617 | before the last attempt nothing was delivered, and for embeddings and transcriptions the worker cannot have executed |
| RouterRetry.ChatsAreRetried | src/coordinator.rs:1596-1617 | a chat or completion attempt ends the request if and only if the client got something of it |
| SseStream.EventEndIsLast | src/coordinator.rs:1766-1774 | the split point is behind the last blank line |
| SseStream.SseFramer.Push | src/coordinator.rs:1766-1774 | what is forwarded and what is kept are the bytes up to and after that point |
| SseStream.ForwardsWholeEvents | src/coordinator.rs:1766-1774 | for every cut: forwarded bytes and buffer are the bytes received, every piece ends in a blank line, the buffer holds none |
| SseStream.CutIndependentIff | src/coordinator.rs:1766-1774 | all cuts forward the same bytes if and only if the last blank line is not preceded by a newline |
| SseStream.TripleDependsOnCut | src/coordinator.rs:1766-1774 | otherwise, a cut that forwards other bytes |
| SseStream.DoneInForwarded | src/coordinator.rs:1777-1783 | some piece has a `[DONE]` line exactly when the forwarded bytes have |
| SseStream.DoneIsCutIndependent | src/coordinator.rs:1777-1783 | whether the client is sent `[DONE]` does not depend on the cut |
| SseLines.DoneIff | src/coordinator.rs:1777-1783 | a line is terminal if and only if it is `data:`, blanks, `[DONE]` and blanks, where a closing carriage return is a blank |
| SseLines.LinesAreCut | src/coordinator.rs:1777-1783 | the lines joined by newlines are the bytes, and no line holds a newline |
| SseLines.CutIsLines | src/coordinator.rs:1777-1783 | they are the only such lines |
| SseLines.HasDoneIff | src/coordinator.rs:1777-1783 | the end is seen if and only if one of the newline-separated lines is such a terminal line |
| RoutedStream.FirstEvents | src/coordinator.rs:1428-1465 | the first output waits for a whole event; a body without one yields no stream |
| RoutedStream.StreamState.NextChunk | src/coordinator.rs:1691-1735 | each call yields the next chunk owed, and the outcome says how the stream closed |
| RoutedStream.Serve | src/coordinator.rs:1690-1736 | the client gets every whole event in order, then exactly one error event if and only if none of them was `[DONE]` |
| RoutedStream.ErrorIsNotDone | src/coordinator.rs:1677-1689 | the error event is one whole event without a `[DONE]` line |
| RoutedStream.DoneOrError | src/coordinator.rs:1690-1736 | the client's bytes contain `[DONE]` exactly when the worker's forwarded events did |
| RoutedStream.ServedBytes | src/coordinator.rs:1690-1736 | the bytes received are whole events and a rest without a blank line; the client gets the events, and behind them the error event if and only if they hold no `[DONE]` line, and nothing when there is no whole event |
| KvRows.InHead | src/attention.rs:602-623 | every run stays inside its own head's stretch and inside the buffer |
| KvRows.CopiedRow | src/attention.rs:602-623 | row by row, the copy replaces exactly the rows of its runs by the source's |
| KvRows.CopyRows | src/attention.rs:558-623 | the loop over heads is that copy |
| KvCache.SeqKvCache.constructor | src/attention.rs:426-436 | an empty cache with room for twice the block, at least 16 rows |
| KvCache.SeqKvCache.Grow | src/attention.rs:537-550 | growing keeps every row; the capacity at least doubles |
| KvCache.SeqKvCache.Append | src/attention.rs:466-495 | every head's list gets the block's rows; a shape mismatch changes nothing; growth copies in total at most twice the greatest length reached; the capacity stays within max(16, twice that length) once the block the cache was made for is in, and twice that block before |
| KvCache.SeqKvCache.Fork | src/attention.rs:516-533 | fresh buffers of exactly the kept rows |
| KvCache.TruncateKv | src/attention.rs:250-256 | the lists' prefixes, copying nothing; keeping none drops the cache |
| KvCache.ForkKv | src/attention.rs:262-267 | a detached copy of the prefixes, or none |
| KvRuns.Perform | src/attention.rs:250-256 | an append or truncation of the buffers is that operation on the lists |
| KvRuns.ForkedRun | src/attention.rs:258-267 | after any appends and truncations to a fork and to its original, in any order, each holds what its own operations alone leave it |
| AttentionRow.OnlySeenMatters | src/attention.rs:385-396 | masked positions change nothing, however many there are |
| AttentionRow.ContextIsAverage | src/attention.rs:387-421 | the context is the inner product of the value column with probabilities that sum to one, are zero on masked positions, and are proportional to the exponential of the scaled query-key product less the greatest visible one |
| AttentionRow.ContextBetween | src/attention.rs:387-421 | the context lies between the least and the greatest visible value |
| AttentionLayout.SeesItsPast | src/attention.rs:336-358 | whatever offset the caller's mask was built for, each row sees exactly the positions up to its own |
| AttentionLayout.LayoutsAgree | src/attention.rs:398-420 | the CPU and accelerator forms give the same flat result for every shape |
| AttentionLayout.RepeatedAt | src/attention.rs:201-209 | query head h reads KV head h / rep |
| AttentionLayout.FoldIsRepeat | src/attention.rs:362-421 | folding grouped heads into rows computes plain attention with repeated KV heads, at the right output index |
| CachedAttention.Attend | src/attention.rs:362-421 | appends the new rows and attends over everything cached, on either backend; the error cases and what they leave |
| CachedAttention.RunCalls | src/attention.rs:362-421 | successive calls on one cache attend over the rows of all calls so far |
| CachedAttention.ChunkIndependent | src/attention.rs:336-421 | for every cut of a sequence into masked calls and single-token calls, each token's context is causal attention over the whole sequence with repeated KV heads |
| CachedAttention.CausalIsAverage | src/attention.rs:387-421 | that causal attention is the softmax-weighted average of the value rows up to the token's own |
| Affinity.TouchKeepsOrder | src/affinity.rs:133-172 | under a non-decreasing clock touch order and expiry order agree |
| Affinity.OldestExpiresFirst | src/affinity.rs:146-155 | the entry evicted for capacity is one that would expire first |
| Affinity.ExpireBalanced | src/affinity.rs:209-213 | expiry keeps the balance of insertions and removals |
| Affinity.PutBalanced | src/affinity.rs:133-172 | storing an entry keeps both balances |
| Affinity.ForgetBalanced | src/affinity.rs:174-207 | forgetting an entry keeps the balances |
| Affinity.Directory.Expire | src/affinity.rs:209-213 | removes exactly the entries past their time |
| Affinity.Directory.Preferred | src/affinity.rs:122-131 | answers from a live entry only |
| Affinity.Directory.Record | src/affinity.rs:133-172 | at most 4096 entries; inserted = live + evicted + expired + stale + missed; records = preferred + spillovers + misses |
| Affinity.Directory.Invalidate | src/affinity.rs:174-178 | drops the entry and counts it, if there was one |
| Affinity.Directory.Residency | src/affinity.rs:188-207 | a complete report without the scope drops it, an incomplete one leaves it |
| Affinity.Directory.SavedWork | src/affinity.rs:180-186 | the discount is four units a cached token, but at most a fifth of the request's units, and nothing for an unknown scope |
| Drafting.CommonPrefix | src/prefix_cache.rs:341-343 | the longest common prefix |
| Drafting.DraftSession.Truncate | src/draft_model.rs:225-238 | cuts to the kept tokens, or after a failed cut starts over; either way the cache holds the recorded tokens |
| Drafting.DraftSession.Sync | src/draft_model.rs:194-210 | leaves the context cached and returns the logits of evaluating it from scratch, whatever was cached before; feeds only what follows the common prefix if the cut works |
| Drafting.DraftSession.Push | src/draft_model.rs:214-218 | extends the cached tokens by one and returns the logits for all of them |
| Drafting.DraftModel.Acquire | src/draft_model.rs:147-161 | an idle session with the longest shared prefix, or a new one; in step if the pool was |
| Drafting.DraftModel.Release | src/draft_model.rs:164-170 | any session joins the pool, the oldest idle one being dropped when there are too many; a pool of sessions in step stays one when the session is |
| Drafting.DraftFrom | src/draft_model.rs:147-218 | a pooled session synced and pushed gives the logits of the whole token sequence |
| Moments.CauchySchwarz | scripts/gguf_source_parity.py:274-283 | the squared inner product is at most the product of the energies |
| RunningMoments.MergedMean | scripts/gguf_source_parity.py:263-264 | the merged mean is the mean of all values, relative to the origin |
| RunningMoments.MergedCentre | scripts/gguf_source_parity.py:256-262 | the merged centred product is that of all values |
| RunningMoments.MeanOfIs | scripts/gguf_source_parity.py:243-272 | a running mean is the two-pass mean |
| RunningMoments.CentreOfIs | scripts/gguf_source_parity.py:243-272 | a running centred product is the two-pass one |
| Metrics.Metrics.constructor | scripts/gguf_source_parity.py:235-241 | an accumulator that has seen nothing |
| Metrics.Metrics.Add | scripts/gguf_source_parity.py:243-272 | merges the finite pairs of a chunk and counts the others |
| Metrics.Metrics.OnePass | scripts/gguf_source_parity.py:267-271 | the raw sums are those over all finite pairs |
| Metrics.Metrics.TwoPass | scripts/gguf_source_parity.py:243-272 | for every cut and whatever the origin, means, variances and covariance are the two-pass values |
| Metrics.MaxAbsIsMax | scripts/gguf_source_parity.py:272 | the recorded maximum bounds every difference and is attained |
| Metrics.Metrics.EnergiesBound | scripts/gguf_source_parity.py:274-283 | dot squared is at most the product of the energies |
| Metrics.Metrics.CentresBound | scripts/gguf_source_parity.py:274-283 | covariance squared is at most the product of the variances |
| Metrics.Metrics.Summarise | scripts/gguf_source_parity.py:274-283 | cosine and Pearson are the product over the root of the two energies, exist exactly when that does not vanish, and lie in [-1, 1]; the root mean square error is at most the largest difference |
| ParityCompare.SwapsPairs | scripts/gguf_source_parity.py:308-309 | the swap takes the columns two by two and turns each pair around |
| ParityCompare.Stream | scripts/gguf_source_parity.py:301-309 | whatever the chunk size, both accumulators have seen every selected row once |
| ParityCompare.Compare | scripts/gguf_source_parity.py:286-309 | refuses exactly the shapes, selections and widths the script refuses, else compares the selection |
| ParityCompare.SwapKeepsReference | scripts/gguf_source_parity.py:308-309 | on finite selections the adjacent-swapped accumulator has the same count and reference sums |
| Conv1d.Check | src/conv1d.rs:104-137 | accepts exactly the shapes that fit, and returns the output geometry |
| Conv1d.Reference | src/conv1d.rs:141-168 | the nested loops compute every output by the kernels' index split, in the same operation order |
| Conv1d.PassIsConvolution | src/conv1d.rs:141-168 | over the reals each output is the inner product of the channel's window and kernel, plus the bias if there is one, through silu if the operator applies it |
| Conv1d.SplitPass | src/conv1d.rs:141-168 | one pass equals the pass over a first part and the pass over its last d_conv - 1 rows and the rest, for every split point |
| Conv1d.Stream | src/conv1d.rs:141-168 | streaming any list of pieces gives the outputs of one pass |
| Conv1d.Gather | src/conv1d.rs:285-300 | the strided walk yields the view's elements in row-major order |
| ConvGrid.GridCovers | src/conv1d.rs:1055-1064 | the grid has a lane for every index, and one row fewer would not |
| ConvGrid.LaunchExact | src/conv1d.rs:649-656 | in 32-bit index arithmetic, every output is written exactly once and nothing else is, if and only if the outputs and the lanes fit 31 bits |
| ConvGrid.OperatorLaunch | src/conv1d.rs:451-460 | with the operator's group size and row width, if and only if there are at most 65535 * 64 * 512 outputs |
| ConvGrid.NothingWritten | src/conv1d.rs:649-656 | at 2^31 outputs no invocation writes |

## Left out

- Audio: what the audio refresh probes, the audio counters and epochs, and the embedding job table; only the audio pick, and the wait for the refresh inside every pick, are modelled.
- Sockets, HTTP, TLS, CORS, headers, logging, health probes and the wall clock: their outcomes and the time are parameters or steps.
- Trace parsing, hit rates as floating-point quotients and policy names: single-expression code.
- Integer widths: clocks, ticks and counters are unbounded, except where the source saturates (work units, guard decrements, discounts) and in the launch grid.
- The `u64::MAX` sentinel for "never again" in the Belady replay is the number of events.
- Groups of lookups are flattened into one list before a replay's loops, which visit them in the same order.
- f32 and f64 rounding: attention, statistics and scores are over reals, convolution over uninterpreted operations.
- The exponential is any positive function; a row that sees no position, which the causal masks never produce, is not modelled.
- Caller-built masks are those of the causal-mask builder, for any row count and offset.
- CachedAttention.Attend: queries with nothing cached and no new keys are an error in the model; what the tensor library makes of an empty row is not part of it.
- RouterRetry.Route: the wait for a slot is an input that answers as the two picks do, because the wait is the state machine's.
- RouterPick.TryPick: scores are exact rationals, where the source divides in f64.
- Conv1d.Gather: the conversion from half and double precision is left to the element type.
- Affinity namespaces, digests and header encoding, and the directory's preferred-worker filter: hashing is uninterpreted.
- Reserve and advance, which let a fused kernel write cache rows itself: the rows then come from outside the model.
- Clones of a cache that share its buffers: the source forbids appending to them.
- RoPE tables, tensor storage on accelerators, and OpenCL, Vulkan and SYCL program building: foreign code.
- Model loading, vocabulary checks and the tensor readers of the parity script: input formats.
- Belady as a bound for lookup-only prefills and for the static policy: the code does not give it.
