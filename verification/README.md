# SWLP, verified

SWLP runs transformer models that do not fit in memory by streaming layer weights from disk.
It caches, prefetches, speculates and moves data between tiers, and its promise is that all
of this changes when bytes move, never what is computed. This project models the state
machines behind that promise in Dafny 4.11 and proves it of each of them.

`dafny verify dfyconfig.toml` checks everything.

| file | subject |
|---|---|
| `PipelineModel.dfy`, `Simulator.dfy` | the discrete-event pipeline simulator: as a transition system, and as the object its handlers mutate |
| `WorkerPools.dfy`, `PipelineTiming.dfy`, `PipelineAhead.dfy`, `PipelineOverrun.dfy` | its worker pools, what a watcher of the stages sees over a run, how far ahead the pipeline is filled, and a run in which uploads outnumber their workers |
| `HybridModel.dfy`, `HybridRollback.dfy`, `Speculative.dfy`, `Drafters.dfy` | lossless speculative decoding over attention and linear-attention layers, its rollback, and its drafters |
| `Streaming.dfy`, `StreamScheduler.dfy` | the streaming scheduler's threads, futures and recycled read buffers |
| `ExpertCache.dfy`, `ExpertHistory.dfy`, `RoutedOutputs.dfy` | the least-frequently-used expert cache with its lazily invalidated heap, what its counts mean over any history, and the switch layer computing with it |
| `ExpertSlots.dfy`, `ExpertScheduling.dfy`, `ExpertScheduler.dfy` | slot caches of experts under one global recency list: over time, as a value, and as the object |
| `KvStore.dfy`, `KvFits.dfy`, `KvManager.dfy` | the four-tier key/value store, when a value fits it, and the cache layer that parks its rows there |
| `PrefixCache.dfy` | the bounded cache of prompt-prefix snapshots |
| `Codec.dfy`, `Shards.dfy` | the compression container, and in-place conversion of a directory with crashes |
| `BatchDecode.dfy` | lockstep batched decoding against decoding each prompt alone |
| `Residency.dfy`, `Overlap.dfy` | the residency planner and the overlap recurrence |
| `Common.dfy`, `Arithmetic.dfy`, `Sums.dfy` | options, duplicate-free and rising lists, sums over maps |

Where the source updates an object in place the model is a class whose methods are proved
against functions on its abstract state; the properties are proved of those functions.
Nondeterminism of the environment (equal-time events, thread interleavings, completion and
failure of background reads, crash points, drafts, routing) is a parameter or an arbitrary
choice, so every result holds for all of it.

Assumptions, each explicit in a contract or a type: floats are reals; clocks are strictly
increasing ticks; a file read, a layer, a greedy pick, an expert's matrices, the packer and
the digest are functions of their inputs; layers are causal; packing key/value rows is
invertible (`KvStore.Lossless`); the digest tells a payload from what the packer makes of that
same payload (`Codec.Restores`), which replaces assuming that the packer is invertible. Each
hypothesis is shown to be met by something: `Codec.StoredRestores`, `Shards.GoodDirectoryExists`,
`KvStore.GetCanReturnNothing`, `KvFits.ShrinkingExists`, `PrefixCache.CausalExists`.

What the proofs found about the code:

- A simulation reaches its end exactly for the configurations in `PipelineModel.CanFinish`:
  all layers resident, `max(window_size, prefetch_depth) >= 1`, or that maximum zero and a
  single layer. Otherwise the run silently stops before layer `StuckAt`, as for the one in
  `PipelineModel.UnfinishableExists` (`scripts/research/simtools/simulator.py:263-272`,
  `scripts/research/simtools/simulator.py:523-529`).
- Uploads can outnumber the upload workers. An upload that has to wait reserves its worker for the
  latency of the moment it was submitted, and takes the latency of the moment it starts
  (`scripts/research/simtools/simulator.py:381-405`), which is higher when more layers are loaded by
  then; its worker is handed on before it has ended. `PipelineOverrun.UploadsOverlap` is a run with two
  uploads under way on one worker, `PipelineTiming.OverrunsWhen` says exactly when an upload outlasts
  its reservation, `PipelineTiming.UploadsWithinWorkers` that only such uploads come on top of the
  workers, and `PipelineTiming.LevelOnTime` that there are none when the latency is the same at every
  load (as it is below 65% of memory, `PipelineOverrun.NoPressureIsLevel`). Reads are never more than
  their workers (`PipelineTiming.AlwaysWithinWorkers`).
- The comment on the upload penalty promises about 25 times at 95% of memory and 125 times at 100%
  (`scripts/research/simtools/simulator.py:237-238`); the formula gives `3 * 5^(x / 0.15)` beyond 85%,
  which is 15 times at 100% (`PipelineModel.PenaltyGrows`).
- A `get` from the key/value store can return nothing although the layer's value is stored:
  the budget enforcement it triggers may compress the very entry it is about to return, when
  only its packed form fits the budget (`src/swlp/core/kv_cache.py:266-277`). `KvStore.GetKeeps`
  gives the exact condition, `KvFits.GetReturnsWhenSumFits` states it as a sum over the stored
  values when packing never grows one, `KvStore.GetCanReturnNothing` is a run that shows it; the
  cache layer on top then restarts empty.
- An apply that raises still marks its layer loaded (`src/swlp/core/streaming.py:427-428`), so
  the next `ensure` of that layer returns the broken block without an error and without trying
  again (`src/swlp/core/streaming.py:563-577`): `StreamScheduler.StreamingScheduler.Ensure` says
  exactly when what it returns is the layer's shard, `Streaming.BrokenBlockIsReturned` shows the
  run. When the whole model is resident eviction never clears the mark, and the block stays
  broken for good (`Streaming.ResidentBlocksStay`).
- The policy promises never to exceed the safe memory limit, but always keeps two layers
  (`src/swlp/core/resident_policy.py:144-147`); `Residency.PolicyFitsMemory` says exactly
  when the promise holds, `Residency.PolicyCanExceedMemory` gives an input at which it does not.
  The planner's own clamp makes its plan fit in any case.
- A crash between the two halves of rewriting the shard manifest, which is not an atomic
  write (`src/swlp/model/shard.py:547-566`), leaves it unreadable, and no later run starts.
  `Shards.RunEnds` says exactly which crash points do this, `Shards.TornManifest` shows one; by
  then every layer is converted and readable (`Shards.RunKeeps`).
- A completed conversion leaves only the target format among the layer files, but a temporary
  file of the opposite direction is there afterwards exactly if it was there before
  (`Shards.TemporariesLeft`, `src/swlp/model/shard.py:275-285`): one that a crashed restore left is
  still there after a completed compression (`Shards.LeftoverSurvives`).
- A key stays in the staging order after its read was taken, so a later arrival may push out
  that stale mention and with it a newer read of the same key (`src/swlp/runner/expert_scheduler.py:141-149`,
  `ExpertScheduling.ArrivedStays`, and `ExpertScheduling.StaleMentionLosesRead` for a run): the
  read is lost, never wrong.
- `ExpertScheduler.ensure` takes a staged read only if that read was still in flight when it
  was called; one that had already been staged is read again and its copy left behind
  (`src/swlp/runner/expert_scheduler.py:203-218`, `ExpertScheduling.StagedIsReadAgain`).
- A resize of a layer's slots removes what its slot map lists first, which it calls the
  longest-resident and, in its documentation, the least recently used experts
  (`src/swlp/runner/experts.py:97-100`, `src/swlp/runner/experts.py:106-144`). The map is in the order
  of filling only until a resize rebuilds it in slot order. `ExpertSlots.EvictsEarliestWhen` says
  exactly when the earliest go, by filling or by use, `ExpertSlots.AllResizesEvictEarliest` and
  `ExpertSlots.ResizedAscends` when that is so for every capacity and when a resize keeps it so.
  `ExpertSlots.SecondResizeKeepsOlder` is a run that drops the newest expert, and
  `ExpertScheduling.BudgetEvictsRecent` one that drops the most recently used.

## Model

| member | source | states |
|---|---|---|
| Simulator.Simulate | scripts/research/simtools/simulator.py:650-716 | for every runnable configuration and every order of equal-time events: the run-time checks never trip; the run finishes exactly when `CanFinish`; then it has computed layers 0..L-1 in order once per token, `tokens * layers` computes in all, with no streamed layer in flight at any token boundary; GPU busy time is one compute time per compute, and wall time is first start plus busy plus idle time; every read took exactly the read latency and every upload an upload latency, at no time more reads or upload reservations than workers overlap, a finished run has read and uploaded each streamed layer once per token, and its workers had the time for that; an unfinishable run stops having computed exactly the layers before the stranded one |
| PipelineModel.HandleKeeps | scripts/research/simtools/simulator.py:664-698 | whichever earliest event is taken, its handler is applicable, keeps the structural, accounting and progress invariants, and lowers the measure (token, layer, remaining pipeline work, queued events): every run terminates |
| PipelineModel.InitialKeeps | scripts/research/simtools/simulator.py:149-193 | the first token's submissions establish the invariants |
| PipelineModel.EndedRun | scripts/research/simtools/simulator.py:664-698 | when the end event is reached the configuration can finish, the log is the full schedule, and the end time is first start plus busy plus idle |
| PipelineModel.DrainedRun | scripts/research/simtools/simulator.py:664-698 | when the queue drains without an end event the configuration is one that cannot finish, and only the layers before the stranded one were computed |
| PipelineModel.UnfinishableExists | scripts/research/simtools/simulator.py:263-272 | a runnable configuration that cannot finish, and where it stops |
| PipelineModel.EarliestExists | scripts/research/simtools/simulator.py:91-103 | a non-empty queue has an event no later than all others, whatever breaks ties |
| PipelineModel.ScheduleLength | scripts/research/simtools/simulator.py:241-272 | the schedule of whole tokens has tokens times layers entries |
| PipelineModel.ScheduleAt | scripts/research/simtools/simulator.py:241-272 | entry `t * layers + l` of the schedule is layer `l` of token `t` |
| PipelineModel.BusyTimeIsProduct | scripts/research/simtools/simulator.py:454-490 | GPU busy time is the number of computes times the compute time |
| WorkerPools.StartIsEarliest | scripts/research/simtools/simulator.py:118-134 | a pool starts a task as soon as a worker is free and not before |
| WorkerPools.AcquiredServes | scripts/research/simtools/simulator.py:118-134 | a task that takes a worker holds it from its start for exactly its duration: there are never more tasks at once than workers, and the busy workers are the tasks under way |
| WorkerPools.StartAwaits | scripts/research/simtools/simulator.py:118-134 | until a delayed task starts every worker is busy |
| WorkerPools.UniformFits | scripts/research/simtools/simulator.py:118-134 | once all tasks have ended, the workers' time covers the sum of their durations |
| PipelineTiming.HandleTimed | scripts/research/simtools/simulator.py:320-514 | whatever event is handled: no stage lasts longer or shorter than it should (reads the read latency, uploads an upload latency, applies 30% of one, computes the compute time, everything else nothing), the pools record exactly the reads and reservations, a read or upload waits only while all its workers are taken, and every streamed layer is read and uploaded once per compute |
| PipelineTiming.AlwaysWithinWorkers | scripts/research/simtools/simulator.py:118-134 | in every reachable state: no more reads are under way than workers; no more uploads either when the latency is the same at every load; a read waits only while as many reads as workers hold one |
| PipelineTiming.ReadsWithinWorkers | scripts/research/simtools/simulator.py:320-353 | at any moment no more reads are under way than workers |
| PipelineTiming.WaitingMeansBusy | scripts/research/simtools/simulator.py:320-341 | while a read waits, exactly as many reads as workers hold one |
| PipelineTiming.UploadsWithinWorkers | scripts/research/simtools/simulator.py:373-405 | the uploads within their reservation are no more than the workers; the others come on top |
| PipelineTiming.OverrunsWhen | scripts/research/simtools/simulator.py:395-405 | an upload that waited outlasts its reservation exactly when the latency at its start is above that at its submission |
| PipelineTiming.LevelOnTime | scripts/research/simtools/simulator.py:373-405 | with one latency at every load no upload outlasts its reservation, and no more are under way than workers |
| PipelineTiming.FinishedCounts | scripts/research/simtools/simulator.py:252-272 | a finished run has read and uploaded every streamed layer once per token |
| PipelineTiming.FinishedReads | scripts/research/simtools/simulator.py:118-134 | and took long enough for its workers to make all the reads |
| PipelineAhead.AlwaysFilled | scripts/research/simtools/simulator.py:263-289 | in every reachable state the streamed layers in the pipeline are, from the current one on, exactly those within the window or prefetch depth of the token's first layer, of a computed layer, or of one whose read has ended |
| PipelineAhead.HandleFills | scripts/research/simtools/simulator.py:523-529 | every event keeps it so |
| PipelineOverrun.UploadsOverlap | scripts/research/simtools/simulator.py:395-405 | a run of 16 events of three layers with one upload worker that reaches a state with two uploads under way |
| PipelineOverrun.SampleLatencies | scripts/research/simtools/simulator.py:211-237 | its latencies are those of the formula for layers of 70% of the memory |
| PipelineOverrun.NoPressureIsLevel | scripts/research/simtools/simulator.py:211-237 | while the whole model takes less than 65% of the memory the latency is the same at every load |
| PipelineModel.PenaltyGrows | scripts/research/simtools/simulator.py:211-237 | the penalty never falls as usage rises: 1 up to 65%, 2 at 75%, 3 at 85%, three times `5^1` at 100% |
| PipelineModel.UploadGrows | scripts/research/simtools/simulator.py:211-237 | so a layer more on the device never makes uploads faster |
| PipelineModel.EffectiveUpload | scripts/research/simtools/simulator.py:211-237 | the pressured upload latency is positive in all three regions |
| PipelineModel.SubmitRangeKeeps | scripts/research/simtools/simulator.py:523-529 | submitting prefetches for a range of layers at or after the current one keeps the structure |
| PipelineModel.PrefetchSubmitKeeps | scripts/research/simtools/simulator.py:320-341 | a submitted prefetch event keeps the invariants and makes progress |
| PipelineModel.ReadStartKeeps | scripts/research/simtools/simulator.py:344-353 | so does a delayed read starting |
| PipelineModel.ReadEndKeeps | scripts/research/simtools/simulator.py:356-370 | so does a read ending, with the prefetches it triggers |
| PipelineModel.UploadSubmitKeeps | scripts/research/simtools/simulator.py:373-392 | so does an upload being submitted, at any positive latency |
| PipelineModel.UploadStartKeeps | scripts/research/simtools/simulator.py:395-405 | so does a delayed upload starting |
| PipelineModel.BecomesReadyKeeps | scripts/research/simtools/simulator.py:408-427 | so does a layer becoming ready, with the compute it may start |
| PipelineModel.ResidentApplyKeeps | scripts/research/simtools/simulator.py:430-443 | so does a resident layer being applied |
| PipelineModel.TryStartKeeps | scripts/research/simtools/simulator.py:454-490 | starting the current layer if it is ready keeps structure and accounts, and changes no other layer |
| PipelineModel.ComputedNext | scripts/research/simtools/simulator.py:493-514 | after a compute the layer is idle again, the next streamed layer is already in the pipeline, and the clock is at the end of the GPU's work |
| PipelineModel.ComputeEndKeeps | scripts/research/simtools/simulator.py:493-514 | a compute ending keeps the invariants and makes progress, across layer and token boundaries |
| PipelineModel.BoundaryIdle | scripts/research/simtools/simulator.py:252-261 | at a token boundary every layer is idle: nothing is in flight |
| PipelineModel.NextTokenKeeps | scripts/research/simtools/simulator.py:252-272 | starting the next token keeps the invariants |
| PipelineModel.LastTokenKeeps | scripts/research/simtools/simulator.py:252-261 | so does finishing the last one |
| Simulator.PlacedAgrees | scripts/research/simtools/simulator.py:146-193 | moving one layer between the simulator's sets keeps them in agreement with one stage per layer |
| Simulator.SimState.CoupledIsConsistent | scripts/research/simtools/simulator.py:297-314 | sets that agree with the stages satisfy every run-time assertion |
| Simulator.SimState.CheckInvariants | scripts/research/simtools/simulator.py:297-314 | the check returns true exactly when every layer satisfies the assertions |
| Simulator.SimState.LoadedBounded | scripts/research/simtools/simulator.py:207-211 | never more loaded layers than layers |
| Simulator.SimState.RunEvent | scripts/research/simtools/simulator.py:664-698 | handling any earliest event on the real sets, pools and counters is the turn of the transition system at the latency of the layers loaded, and passes the check |
| Simulator.SimState.HandlePrefetchSubmit | scripts/research/simtools/simulator.py:320-341 | the handler on sets and pools is the transition of the same name |
| Simulator.SimState.HandleReadEnd | scripts/research/simtools/simulator.py:356-370 | moving the layer out of the reading set, queueing its upload and prefetching ahead on the real fields is the read-end transition |
| Simulator.SimState.HandleUploadEnd | scripts/research/simtools/simulator.py:408-427 | marking the layer loaded and ready on the real sets, and starting it if it is the current one, is the upload-end transition |
| Simulator.SimState.HandleComputeEnd | scripts/research/simtools/simulator.py:493-514 | releasing the layer, prefetching ahead, logging and advancing layer or token on the real fields is the compute-end transition |
| Simulator.SimState.StartCompute | scripts/research/simtools/simulator.py:454-490 | starting the current layer bills the idle gap and the busy time and schedules the end, as the transition does |
| Speculative.SpeculativeDecode | src/swlp/runner/speculative.py:217-296 | for any drafter, draft lengths and number of sweeps the tokens are exactly those of plain greedy decoding, in at most one sweep per new token; the caches end up those of everything but the newest token, or after an end token those of the tokens and part of what the last sweep confirmed beyond it |
| Speculative.PlainDecode | src/swlp/runner/swlp.py:339-395 | the one-token loop computes greedy decoding from the same caches |
| Speculative.VerifyStep | src/swlp/runner/speculative.py:130-215 | one sweep, verification and rollback add a chain of greedy tokens, one more than were accepted, and leave the caches greedy decoding would have |
| Speculative.VerifyGreedy | src/swlp/core/speculative.py:92-133 | the accepted draft prefix and exactly one target token, which differs from the draft if any was rejected; a wrong number of picks is refused, and only that |
| Speculative.VerifiedAreGreedy | src/swlp/core/speculative.py:21-27 | whatever the draft, each verified token is the greedy choice after everything before it |
| Speculative.ChainIsGreedy | src/swlp/core/speculative.py:21-27 | appending a greedy chain is where greedy decoding goes, cut at the first end token |
| Speculative.HiddenPicks | src/swlp/runner/speculative.py:130-215 | position `i` of a sweep over the last token and the draft picks as if only the tokens and the first `i` drafted ones existed |
| Speculative.KeptIsBehind | src/swlp/runner/hybrid_rollback.py:1-22 | keeping one token more than were accepted leaves the caches of everything confirmed but the newest token |
| HybridModel.SweepSplit | src/swlp/runner/hybrid_rollback.py:1-22 | feeding two chunks one after the other is feeding them together, through all layers |
| HybridModel.SweepPrefix | src/swlp/runner/hybrid_rollback.py:1-22 | a sweep is causal: later tokens do not change earlier outputs |
| HybridModel.RecomputedIsRun | src/swlp/runner/hybrid_rollback.py:148-159 | convolution window `x[keep : keep + kernel]` and the fold of the kept inputs from the saved state are the state of feeding only the kept tokens |
| HybridModel.CroppedIsRun | src/swlp/runner/hybrid_rollback.py:145-147 | truncating the attention rows by the rejected count is feeding only the kept tokens |
| HybridModel.RollbackIsPrefix | src/swlp/runner/hybrid_rollback.py:125-159 | rewinding every layer of a recorded sweep gives all layers the state of sweeping only the kept prefix |
| HybridRollback.VerifySweep | src/swlp/runner/hybrid_rollback.py:86-122 | the in-place sweep computes the model's sweep and records, for each linear layer, fresh copies of what a rollback needs |
| HybridRollback.Rollback | src/swlp/runner/hybrid_rollback.py:125-159 | in place: nothing to remove changes nothing; `keep < 1` and an incomplete record raise and change nothing; otherwise the caches hold exactly the state of sweeping the kept prefix |
| HybridRollback.RewindLayer | src/swlp/runner/hybrid_rollback.py:144-159 | one layer is rewound in place to its cropped rows, or its recomputed window and fold |
| Drafters.ProposeNgram | src/swlp/core/speculative.py:63-89 | a draft exists exactly when drafting is on and the last token occurred before; it continues the most recent occurrence of the longest matching context |
| Drafters.Adapted | src/swlp/runner/draft.py:121-130 | the draft length stays in [1, max] (0 when max is 0), grows on full acceptance and shrinks below half |
| Drafters.ObservedRun | src/swlp/runner/draft.py:121-130 | over a run of sweeps of one kind: full acceptance doubles the length each time up to the maximum, majority acceptance adds one each time, poor acceptance halves it down to one |
| Drafters.DraftModelDrafter.Observe | src/swlp/runner/draft.py:121-130 | the field is updated by that rule and keeps its bounds |
| Drafters.DraftModelDrafter.SyncCache | src/swlp/runner/draft.py:177-199 | the cache is cropped to exactly its longest common prefix with the tokens short of their last, or dropped when the crop raises, and stays the model's cache of what it covers |
| Drafters.DraftModelDrafter.Propose | src/swlp/runner/draft.py:151-175 | after any history the draft is the one made from scratch, for the current length, and the cache covers all but its last token |
| Drafters.ForwardSplit | src/swlp/runner/draft.py:151-199 | running the draft model in two parts is running it once |
| Drafters.CropIsPrefix | src/swlp/runner/draft.py:177-199 | cropping its cache is having fed only the prefix |
| Drafters.DraftPrefix | src/swlp/runner/draft.py:151-175 | a shorter draft is a prefix of a longer one |
| Streaming.RunKeeps | src/swlp/core/streaming.py:305-379 | under every interleaving of prefetch, read, torn read, upload, failure, ensure and evict steps: each read buffer has at most one owner; futures and loaded layers are disjoint; a payload not yet uploaded is intact; every result and every loaded block is its own layer's bytes unless applying it failed |
| Streaming.LoadedBlocksAreShards | src/swlp/core/streaming.py:396-430 | on runs where no apply fails, every loaded block holds exactly its shard |
| Streaming.NeverStuck | src/swlp/core/streaming.py:521-628 | a compute thread in ensure can go on, or the job it waits for has a step left that brings it nearer its end, and one that does not fail if the layer's file exists |
| Streaming.WaitCanSucceed | src/swlp/core/streaming.py:521-628 | from every state in which ensure waits for a layer whose file exists, at most five steps, with the fallback to a synchronous read if the prefetch failed, load it with exactly its shard, unless its own synchronous read has failed |
| Streaming.EveryScheduleEnds | src/swlp/core/streaming.py:521-628 | for every schedule of all threads, with any failures: no step sets a call of ensure back, and once its job's steps have advanced it often enough, at most ten times, the call is over |
| Streaming.BrokenBlockIsReturned | src/swlp/core/streaming.py:427-428 | a concrete run: after an apply that raised, the next ensure changes nothing, tries no apply and leaves the block broken, although its bytes are in memory |
| Streaming.ResidentBlocksStay | src/swlp/core/streaming.py:654-655 | when every layer is resident no sequence of steps repairs or evicts a loaded block: a broken one stays broken |
| Streaming.WaitedSettles | src/swlp/core/streaming.py:587-628 | when the wait is over the layer is loaded only if it was read, and then broken exactly if this call's apply failed |
| Streaming.StepKeeps | src/swlp/core/streaming.py:461-513 | each single step keeps the invariant |
| Streaming.FilledPayload | src/swlp/core/shard_io.py:140-210 | after a read into a reused, possibly longer or replaced buffer the payload is the whole file |
| Streaming.FinishReadKeeps | src/swlp/core/streaming.py:305-357 | completing a read keeps the invariant, also when the buffer was too small and is replaced |
| Streaming.ReleaseKeeps | src/swlp/core/streaming.py:359-379 | handing a buffer back when its upload ends keeps one owner each |
| Streaming.EnsureBeginKeeps | src/swlp/core/streaming.py:521-596 | entering ensure keeps the invariant: resident, loaded, prefetched and missing layers |
| Streaming.EnsureWakeKeeps | src/swlp/core/streaming.py:587-628 | so does leaving it: applied, falling back to a synchronous read, or failing |
| Streaming.EvictKeeps | src/swlp/core/streaming.py:630-667 | so does eviction, which never drops a future |
| StreamScheduler.StreamingScheduler.Ensure | src/swlp/core/streaming.py:521-628 | a call of ensure with arbitrary steps of the other threads in between: it evolves as the model does; a layer already marked loaded is returned as it is, broken or not, with nothing changed; any other is returned exactly when it was read and applied, and an error means that one of the two failed; what is returned is the layer's shard exactly unless an earlier apply had left it broken |
| StreamScheduler.StreamingScheduler.Perform | src/swlp/core/streaming.py:305-379 | every step on the shared fields is the step of the model and keeps the invariant |
| StreamScheduler.StreamingScheduler.Prefetch | src/swlp/core/streaming.py:461-513 | submits exactly for an enabled, valid, streamed layer neither loaded nor already submitted |
| StreamScheduler.StreamingScheduler.FinishRead | src/swlp/core/shard_io.py:140-210 | the buffer is reused if it is long enough, else replaced; plain payloads view it, packed ones own their bytes |
| StreamScheduler.StreamingScheduler.EnsureBegin | src/swlp/core/streaming.py:563-606 | counts a hit if the job had finished, a wait if not, and a miss if there was none |
| StreamScheduler.StreamingScheduler.EnsureWake | src/swlp/core/streaming.py:587-628 | applies the result, falls back, or gives up |
| StreamScheduler.StreamingScheduler.Evict | src/swlp/core/streaming.py:630-667 | with no call of ensure under way, a valid loaded layer of a model that is not fully resident loses its mark and its block; those of every other layer, the resident set, the jobs and the buffers stay as they were; otherwise nothing changes |
| Streaming.VisitLoadsOne | src/swlp/core/streaming.py:521-667 | from a state with nothing loaded, a call of ensure, with whatever the other threads do, loads at most its own layer |
| Streaming.VisitsLeaveNothing | src/swlp/core/streaming.py:521-667 | ensuring and evicting any layers in turn, of a model that is not fully resident, leaves nothing loaded, or at most the layer whose call is still on |
| ExpertCache.EvictedIsLfu | src/swlp/runner/mlx_expert_cache.py:194-202 | the ideal eviction ends within budget and every survivor outranks everything evicted by (frequency, last use) |
| ExpertCache.EvictedStopsInTime | src/swlp/runner/mlx_expert_cache.py:194-202 | no eviction is idle: with the last victim back the cache would not fit |
| ExpertCache.LeastLiveIsVictim | src/swlp/runner/mlx_expert_cache.py:219-227 | the least heap entry, if live, names the true minimum of the cache |
| ExpertCache.StaleKeepsHeap | src/swlp/runner/mlx_expert_cache.py:219-227 | popping a stale entry loses no cached key's live entry |
| ExpertCache.EvictKeepsHeap | src/swlp/runner/mlx_expert_cache.py:219-227 | popping a live one keeps every other key's |
| ExpertCache.PushKeepsHeap | src/swlp/runner/mlx_expert_cache.py:204-213 | stamping a key and pushing its entry keeps one live entry per cached key, carrying its current frequency |
| ExpertCache.MlxExpertCache.EvictOne | src/swlp/runner/mlx_expert_cache.py:219-227 | fails exactly on an empty cache; otherwise the true minimum goes and the byte count stays exact |
| ExpertCache.MlxExpertCache.Materialize | src/swlp/runner/mlx_expert_cache.py:175-202 | caching a finished read is the ideal insertion and eviction; bytes end within budget, and the value is returned even when it is the victim |
| ExpertCache.MlxExpertCache.RebuildHeap | src/swlp/runner/mlx_expert_cache.py:215-217 | one live entry per cached key |
| ExpertCache.MlxExpertCache.Push | src/swlp/runner/mlx_expert_cache.py:208-213 | stamps the key and keeps the heap within its slack |
| ExpertCache.MlxExpertCache.AbsorbFinished | src/swlp/runner/mlx_expert_cache.py:163-173 | completed prefetches are cached without counting as used, failed ones forgotten |
| ExpertCache.MlxExpertCache.GetMany | src/swlp/runner/mlx_expert_cache.py:100-123 | returns for every requested id what a direct read would, raises only if a requested read fails, evolves exactly as the ideal cache does, also when a read fails, and counts each id once |
| ExpertHistory.CountsAreRequests | src/swlp/runner/mlx_expert_cache.py:204-206 | after any sequence of uses and absorbed reads an expert's frequency is the number of times it was asked for, and its last use the time it was asked for or cached last; neither is forgotten by eviction |
| ExpertHistory.EvictsLeastRequested | src/swlp/runner/mlx_expert_cache.py:194-202 | so every expert an insertion evicts was asked for no more often than any survivor, and of equals it was used longest ago |
| ExpertHistory.CalledIsEvents | src/swlp/runner/mlx_expert_cache.py:100-131 | every call, whatever reads finish or fail, is such a sequence of events |
| ExpertHistory.CallCounts | src/swlp/runner/mlx_expert_cache.py:100-123 | in which each id asked for and served counts once and an absorbed prefetch not at all |
| ExpertHistory.FrequencyIsAsked | src/swlp/runner/mlx_expert_cache.py:100-131 | so over any calls of get_many and prefetch an expert's frequency is how often it was asked for |
| ExpertCache.MlxExpertCache.Prefetch | src/swlp/runner/mlx_expert_cache.py:125-131 | puts in flight exactly the requested experts not cached or already in flight |
| RoutedOutputs.SwitchCall | src/swlp/runner/mlx_switch.py:54-72 | the layer's output for every token and pair is the pair alone on directly read weights, for every routing, prediction and cache state |
| RoutedOutputs.PrefillOutputs | src/swlp/runner/mlx_switch.py:95-110 | grouped evaluation agrees with pair-by-pair evaluation in (token, k) order |
| RoutedOutputs.GroupedOutputs | src/swlp/runner/mlx_switch.py:95-110 | running each expert once, in any order, and gathering with the inverse gives every flat position its own pair's value; with no expert there is nothing to concatenate |
| RoutedOutputs.Inverted | src/swlp/runner/mlx_switch.py:104-108 | the array filled in place is the inverse permutation |
| RoutedOutputs.GroupedOf | src/swlp/runner/mlx_switch.py:98-106 | the positions collected by expert are distinct and exactly those routed to the listed experts |
| RoutedOutputs.AllCovered | src/swlp/runner/mlx_switch.py:98-106 | with the experts of the routing they are a permutation of all positions |
| RoutedOutputs.FlattenAt | src/swlp/runner/mlx_switch.py:66-72 | flat position `t * k + j` is entry `j` of row `t` |
| RoutedOutputs.DecodeOutputs | src/swlp/runner/mlx_switch.py:66-69 | the single-token path evaluates the pairs in order |
| ExpertSlots.InverseCounts | src/swlp/runner/experts.py:62-72 | with the slot maps inverse to each other there is a free slot exactly when fewer experts than slots are held, and no expert is in two slots |
| ExpertSlots.FillHolds | src/swlp/runner/experts.py:74-80 | filling a free slot keeps the maps inverse and adds exactly that expert's weights |
| ExpertSlots.EvictHolds | src/swlp/runner/experts.py:88-95 | evicting keeps the maps inverse and removes exactly that expert |
| ExpertSlots.CompactHolds | src/swlp/runner/experts.py:124-144 | compaction into new slots changes no expert's weights |
| ExpertSlots.SwlpCachedExperts.Fill | src/swlp/runner/experts.py:74-86 | fails exactly when no slot is free, else adds the expert |
| ExpertSlots.SwlpCachedExperts.Evict | src/swlp/runner/experts.py:88-95 | removes exactly the expert, if held |
| ExpertSlots.SwlpCachedExperts.EvictLruLocal | src/swlp/runner/experts.py:97-100 | removes what the slot map lists first, if anything, and nothing else |
| ExpertSlots.FirstIsEarliest | src/swlp/runner/experts.py:97-100 | which is the longest-resident expert as long as the map is in the order of filling |
| ExpertSlots.SwlpCachedExperts.Resize | src/swlp/runner/experts.py:106-144 | the capacity becomes the requested one, at least one; what the slot map lists first beyond it goes, every survivor keeps its weights, and nothing goes if what is held fits; the experts that go are the longest-resident ones exactly when the surplus the map lists first was filled before the rest |
| ExpertSlots.SwlpCachedExperts.NextFreeSlot | src/swlp/runner/experts.py:82-86 | the lowest free slot, none exactly when all are taken |
| ExpertSlots.EvictsEarliestWhen | src/swlp/runner/experts.py:106-144 | by whatever time, of filling or of use, a resize removes exactly the earliest surplus exactly when the surplus listed first is earlier than the rest |
| ExpertSlots.AllResizesEvictEarliest | src/swlp/runner/experts.py:106-144 | so all resizes remove the longest-resident surplus exactly when the map is in the order of filling |
| ExpertSlots.UnresizedAscends | src/swlp/runner/experts.py:74-100 | which holds after any fills and evictions until the capacity is changed |
| ExpertSlots.ResizedAscends | src/swlp/runner/experts.py:129-144 | and after a change of capacity holds exactly when, of what is kept, higher slots were filled later |
| ExpertSlots.SecondResizeKeepsOlder | src/swlp/runner/experts.py:106-144 | a concrete run of two fills, an eviction, a fill and two resizes that drops the expert filled last and keeps an older one |
| ExpertSlots.ResizedSound | src/swlp/runner/experts.py:106-144 | a resize keeps the slots and the map consistent, and keeps the last of the map up to the capacity |
| ExpertScheduling.SlotCapFits | src/swlp/runner/expert_scheduler.py:90-99 | a layer's slots stay within its share of the budget exactly when one expert does |
| ExpertScheduling.AllCapsFit | src/swlp/runner/expert_scheduler.py:90-99 | when that holds for all layers, all slots together fit the budget |
| ExpertScheduling.SlotCap | src/swlp/runner/expert_scheduler.py:90-99 | between one and the number of experts; zero for an unknown layer |
| ExpertScheduling.SlotCapIsLargest | src/swlp/runner/expert_scheduler.py:90-99 | the largest that fits: below the number of experts, one slot more in every layer would exceed the budget, and above one the slots of all layers of this size fit; all experts when budget or size is zero |
| ExpertManager.ExpertScheduler.Ensure | src/swlp/runner/expert_scheduler.py:192-233 | for any staging by the workers: it is the call on the scheduler's value; the slot returned holds the requested expert's own weights; a hit changes no contents; a miss adds it to a free slot, or in place of the layer's victim on the recency list and nothing else |
| ExpertScheduling.EvictsLeastUsed | src/swlp/runner/expert_scheduler.py:119-139 | after any sequence of ensure, prefetch, budget and worker steps: a miss in a full layer evicts, of what that layer holds, exactly the expert whose last call lies furthest back, and changes no other layer |
| ExpertScheduling.RunByUse | src/swlp/runner/expert_scheduler.py:110-117 | after any such sequence the recency list is sorted by the time of last use |
| ExpertScheduling.AfterKeeps | src/swlp/runner/expert_scheduler.py:101-233 | every such step keeps the slots of all layers consistent and what they hold on the recency list, so the fallback to the layer's own order is never needed while anything is held |
| ExpertManager.ExpertScheduler.EvictLeastRecentInLayer | src/swlp/runner/expert_scheduler.py:119-139 | evicts the first of the layer's experts on the recency list, found exactly when anything is held, and nothing else |
| ExpertManager.ExpertScheduler.Register | src/swlp/runner/expert_scheduler.py:83-84 | a layer's empty slot cache joins the others, in place of any the layer had, and disturbs none of them |
| ExpertManager.ExpertScheduler.Touch | src/swlp/runner/expert_scheduler.py:110-117 | moves the key to the recent end, still listed once |
| ExpertManager.ExpertScheduler.AwaitStaged | src/swlp/runner/expert_scheduler.py:203-218 | only a read that was in flight is waited for; between two looks the workers take any number of steps; it is handed over, and taken out, exactly when a look finds it staged |
| ExpertManager.ExpertScheduler.Stage | src/swlp/runner/expert_scheduler.py:141-149 | a finished read is kept, and the oldest staged entries beyond two per worker are forgotten |
| ExpertScheduling.ArrivedStays | src/swlp/runner/expert_scheduler.py:141-149 | an arriving read is there to be used exactly when no stale mention of its key is among the entries its arrival pushes out |
| ExpertScheduling.StaleMentionLosesRead | src/swlp/runner/expert_scheduler.py:141-149 | a concrete run of prefetches and calls in which the second read of an expert is pushed out on arrival by the mention its first read left, and is read once more |
| ExpertScheduling.StagedIsReadAgain | src/swlp/runner/expert_scheduler.py:203-222 | a concrete run in which a read staged before the call is not looked for: the expert is read again |
| ExpertScheduling.BudgetEvictsRecent | src/swlp/runner/expert_scheduler.py:101-108 | a concrete run in which a smaller budget drops the most recently used expert |
| ExpertScheduling.AwaitedTrue | src/swlp/runner/expert_scheduler.py:192-222 | whatever is staged while waiting is the bank's own |
| ExpertManager.ExpertScheduler.Prefetch | src/swlp/runner/expert_scheduler.py:151-175 | puts the key in flight unless held, staged or in flight |
| ExpertManager.ExpertScheduler.SetBudget | src/swlp/runner/expert_scheduler.py:101-108 | it is the call on the scheduler's value: every layer is resized to its new cap, its survivors keep their weights, and a layer that holds no more than its new cap loses nothing |
| KvStore.RunKeeps | src/swlp/core/kv_cache.py:155-425 | after any sequence of set, get and maybe_evict the four byte counters are exact sums over their tiers and every layer still holds the newest rows, as many as the window allows, of the value last set |
| KvStore.GetKeeps | src/swlp/core/kv_cache.py:230-277 | get changes no value and returns the layer's own exactly when it need not move, or compression is off, or the layer fits beside everything else at its coldest; otherwise nothing |
| KvStore.GetReturnsWithinBudget | src/swlp/core/kv_cache.py:230-277 | in particular whenever usage after the move fits the budget |
| KvFits.GetReturnsWhenSumFits | src/swlp/core/kv_cache.py:230-277 | when packing never grows a value, a get that moves a layer to the device returns its value exactly when its plain size and the packed sizes of all other values together fit the budget |
| KvFits.EnforceFits | src/swlp/core/kv_cache.py:385-415 | enforcement over any of the layers gets within the budget exactly when packing all of them would |
| KvStore.GetCanReturnNothing | src/swlp/core/kv_cache.py:266-277 | a concrete run within positive budgets where a stored value is not returned |
| KvManager.KVCacheManager.constructor | src/swlp/core/kv_cache.py:69-75 | an empty store that meets the invariant; a missing or zero budget is replaced by 512 MB, a missing or zero device budget by the budget |
| KvStore.SetKeeps | src/swlp/core/kv_cache.py:155-228 | set stores the newest rows, all of them or as many as the window allows, makes the layer the latest used, changes no other value, and keeps the counters exact |
| KvStore.SetPlaces | src/swlp/core/kv_cache.py:155-228 | with room in both budgets the rows stay plain, on the device exactly if asked, and no other entry moves |
| KvStore.GetPlaces | src/swlp/core/kv_cache.py:230-277 | a get leaves the rows on the device when asked for there and there is room |
| KvStore.EvictKeeps | src/swlp/core/kv_cache.py:372-383 | maybe_evict changes no value; plain rows end up packed if there is compression, else on the host if there is tiering, and nothing else moves |
| KvStore.EnforceBudgetKeeps | src/swlp/core/kv_cache.py:385-410 | enforcement ends within budget, or with every entry in the coldest tier its settings allow and one violation counted; it changes no value |
| KvStore.EnforceDeviceKeeps | src/swlp/core/kv_cache.py:412-425 | device enforcement ends within the device budget or with nothing on the device, and drops no tensors |
| KvStore.ReplaceCounts | src/swlp/core/kv_cache.py:144-153 | discharging the old footprint and charging the new keeps every counter the sum over its tier |
| KvStore.CompressMoves | src/swlp/core/kv_cache.py:353-370 | compressing changes no value and no other entry |
| KvStore.SpillMoves | src/swlp/core/kv_cache.py:281-309 | nor does spilling |
| KvStore.LoadMoves | src/swlp/core/kv_cache.py:311-340 | nor does loading a spill file back, which recognises packed bytes |
| KvStore.DecompressMoves | src/swlp/core/kv_cache.py:254-264 | decompressing makes the tensors the stored value |
| KvStore.LruOrdered | src/swlp/core/kv_cache.py:391-391 | the enforcement order is by last access, without repetition |
| KvStore.LruEndsWithLatest | src/swlp/core/kv_cache.py:391-391 | the entry just accessed is visited last |
| KvManager.KVCacheManager.SetTensors | src/swlp/core/kv_cache.py:155-228 | on entries, spill files and counters: drop the previous entry and its file, store the trimmed one, enforce both budgets |
| KvManager.KVCacheManager.GetTensors | src/swlp/core/kv_cache.py:230-277 | on the same fields: touch, load, decompress, move, enforce, and return what is then in the entry |
| KvManager.KVCacheManager.MaybeEvict | src/swlp/core/kv_cache.py:372-383 | offloads, then compresses, exactly when the settings and the tier allow |
| KvManager.KVCacheManager.EnforceBudget | src/swlp/core/kv_cache.py:385-410 | the loop over entries sorted by last access stops as soon as usage fits, and counts a violation if it never does |
| KvManager.KVCacheManager.EnforceDeviceBudget | src/swlp/core/kv_cache.py:412-425 | the loop offloads device entries, oldest first, until the device budget holds |
| KvManager.KVCacheManager.SpillToDisk | src/swlp/core/kv_cache.py:281-309 | with a spill directory the packed bytes move to the layer's file, and the footprint with them |
| KvManager.KVCacheManager.LoadFromDisk | src/swlp/core/kv_cache.py:311-340 | the file is read and deleted; plain tensors go to the host, anything else becomes the packed entry |
| KvManager.KVCacheManager.SortedByAccess | src/swlp/core/kv_cache.py:391-391 | the entries in order of last access |
| KvManager.CompressedDynamicLayer.SeqLength | src/swlp/core/compressed_cache.py:81-84 | the reported length is the length of the rows the layer stands for, cold or not |
| KvManager.CompressedDynamicLayer.Compress | src/swlp/core/compressed_cache.py:48-63 | a non-empty warm layer goes cold with its newest rows, as many as the window allows; other layers keep theirs |
| KvManager.CompressedDynamicLayer.Decompress | src/swlp/core/compressed_cache.py:65-72 | the rows come back exactly when the store can keep the layer readable, else the layer is empty |
| KvManager.CompressedDynamicLayer.Update | src/swlp/core/compressed_cache.py:74-79 | new rows are appended to the restored ones |
| PrefixCache.KeptIsLru | src/swlp/core/prefix_cache.py:161-168 | eviction ends within both bounds and evicts only what is older than all it keeps |
| PrefixCache.KeptStopsInTime | src/swlp/core/prefix_cache.py:161-168 | with its last victim back a bound would be broken |
| PrefixCache.KeptKeepsLatest | src/swlp/core/prefix_cache.py:161-168 | the newest entry is never evicted if it fits alone |
| PrefixCache.InsertedKeeps | src/swlp/core/prefix_cache.py:142-168 | inserting keeps distinct, aligned, ordered, bounded entries; the new entry stays, replacing its namesake |
| PrefixCache.StoredFromKeeps | src/swlp/core/prefix_cache.py:96-140 | a store with its interval snapshots keeps all that, keeps the full prefix if it fits alone, and only adds snapshots equal to recomputing their prefix |
| PrefixCache.SnapshotsAtIntervals | src/swlp/core/prefix_cache.py:131-140 | with room for them, a store leaves a snapshot with its rows at every multiple of the interval and at the full length, and takes away only what it replaces |
| PrefixCache.CutComputes | src/swlp/core/prefix_cache.py:133-137 | the rows of a cut are those of the cut prefix |
| PrefixCache.RefreshKeeps | src/swlp/core/prefix_cache.py:89-90 | using an entry makes it more recent than every other and changes nothing else |
| PrefixCache.RunKeeps | src/swlp/core/prefix_cache.py:66-168 | after any sequence of stores and lookups the entries are distinct, ordered by length, aligned and within both bounds, and each holds what recomputing its prefix would give |
| PrefixCache.LookupIsTrue | src/swlp/core/prefix_cache.py:66-94 | after any such sequence a lookup finds the longest usable prefix, with the rows recomputing it would give |
| PrefixCache.Found | src/swlp/core/prefix_cache.py:66-94 | an entry is found exactly when one is usable within the limits, and it is a longest one |
| PrefixCache.PrefixKVCache.Lookup | src/swlp/core/prefix_cache.py:66-94 | the longest stored prefix within the limits, nothing exactly when there is none, with rows equal to recomputing it; it becomes the most recent and no other entry changes |
| PrefixCache.PrefixKVCache.Store | src/swlp/core/prefix_cache.py:96-140 | layers of different lengths, or longer than the ids, are refused and change nothing; longer ids are trimmed |
| PrefixCache.PrefixKVCache.Insert | src/swlp/core/prefix_cache.py:142-168 | appending, sorting stably by length and evicting on the list is the value-level insertion; refused exactly when too large alone |
| PrefixCache.SortIsStable | src/swlp/core/prefix_cache.py:160-160 | the sort orders by length and keeps the entries of each length in the order they were in, none lost or added |
| Codec.RoundTrip | src/swlp/codec.py:115-160 | what compression accepts decompresses to the original bytes, whatever the packer does, provided the digest tells the payload from what the packer makes of it |
| Codec.CompressedDecodes | src/swlp/codec.py:115-160 | with no such assumption: same length and digest, with or without the check |
| Codec.CompressSucceedsWhen | src/swlp/codec.py:115-132 | compression succeeds exactly on non-empty payloads below 2^64 bytes that the packer restores |
| Codec.StoredRestores | src/swlp/codec.py:115-132 | a packer, digest and checksum for which all payloads meet the hypotheses, and compression accepts every non-empty one below 2^64 bytes |
| Codec.DigestIsNeeded | src/swlp/codec.py:115-132 | a packer and a colliding digest for which compression accepts a payload that decodes to other bytes |
| Codec.DecompressOfContainer | src/swlp/codec.py:135-160 | which error decoding a container gives, or that it gives the payload |
| Codec.AlteredPayload | src/swlp/codec.py:135-160 | an altered payload is refused unless the checksum collides; under the digest check it decodes only to bytes of the original digest, so to the original unless these very bytes collide with it |
| Codec.ParseOfPack | src/swlp/codec.py:56-60 | the 48-byte header parses back |
| Codec.NumberOfLittleEndian | src/swlp/codec.py:56-60 | little-endian numbers read back |
| Shards.CompressStepsKeep | src/swlp/model/shard.py:275-285 | wherever a crash stops the conversion of a layer, the layer keeps a complete good copy; at the end only the compressed file is left |
| Shards.RestoreStepsKeep | src/swlp/model/shard.py:321-333 | the same for restoring, with nothing assumed of packer or digest |
| Shards.LayerEnds | src/swlp/model/shard.py:275-285 | one layer is done exactly when it can be converted and the crash comes after the operations it needs; a layer that can be converted fails only by a crash |
| Shards.GoodReads | src/swlp/core/streaming.py:254-272 | a good layer reads as the original by the streaming reader's order, and through the file any manifest prefers |
| Shards.ConvertKeeps | src/swlp/model/shard.py:270-293 | wherever a run over the layers stops all stay good, and only the target format is left if it completes |
| Shards.ConvertEnds | src/swlp/model/shard.py:270-293 | all layers are done exactly when each can be converted and the crash comes after the sum of what they need |
| Shards.RunKeeps | src/swlp/model/shard.py:249-344 | however a run in either direction ends, every layer keeps a complete good copy; when it is done, and whenever the manifest was touched at all, only the target format is left |
| Shards.RunEnds | src/swlp/model/shard.py:249-344 | a run is done exactly when every layer can be converted and the crash comes after all operations; the manifest is torn exactly when the crash falls on its one write; otherwise it is as before |
| Shards.RunStaysLocal | src/swlp/model/shard.py:249-344 | a run touches no file but its own layers', and never the temporaries of the opposite direction |
| Shards.GoodConverts | src/swlp/model/shard.py:270-333 | a good layer can be compressed exactly if it already is or the packer restores it, and can be restored if it is a safetensors file |
| Shards.Session | src/swlp/model/shard.py:249-344 | any sequence of runs in both directions, each crashed anywhere: every layer reads back as the original, and if the last run completed only its target format is left |
| Shards.RestoredSession | src/swlp/model/shard.py:300-344 | a plain directory after any such sequence that ends with a completed restore is the same directory, but for compression temporaries |
| Shards.RoundTripRun | src/swlp/model/shard.py:249-344 | compress then restore, uninterrupted, gives back the same directory and manifest |
| Shards.TemporariesLeft | src/swlp/model/shard.py:283-285 | after a completed run its own temporaries are gone, and one of the opposite direction is there exactly if it was before |
| Shards.LeftoverSurvives | src/swlp/model/shard.py:330-333 | a concrete run: a restore crashed right after writing its temporary, a completed compression, and the temporary is still there |
| Shards.TornManifest | src/swlp/model/shard.py:547-566 | a concrete run: a compression crashed inside the manifest write; every later run is refused |
| Shards.GoodDirectoryExists | src/swlp/model/shard.py:249-344 | a directory of a plain and a half-converted layer meets the hypotheses of these results |
| Shards.ShardDir.CompressShards | src/swlp/model/shard.py:249-297 | the operations on the directory, one at a time, are exactly the run the results above are about, outcome and manifest included |
| Shards.ShardDir.DecompressShards | src/swlp/model/shard.py:300-344 | the same for the restoring run |
| Shards.ShardDir.CompressLayer | src/swlp/model/shard.py:275-285 | one layer: skipped, missing, not compressible, or replaced through its temporary |
| Shards.ShardDir.DecompressLayer | src/swlp/model/shard.py:321-333 | one layer: skipped, its leftover compressed file dropped, missing, failing its check, or replaced through its temporary |
| BatchDecode.RunBatch | src/swlp/runner/batch.py:155-196 | each row's decoded tail is what decoding its prompt alone gives, with frozen rows, early stop, and a pad that may be the end token |
| BatchDecode.GenerateAlone | src/swlp/runner/hf.py:168-202 | the single-sequence loop |
| BatchDecode.ActiveKeeps | src/swlp/runner/batch.py:173-190 | an unfinished row stays on its single-sequence run |
| BatchDecode.FrozenKeeps | src/swlp/runner/batch.py:183-190 | a finished row's padding changes nothing up to its end token |
| BatchDecode.TrackEnds | src/swlp/runner/batch.py:88-101 | cutting at the first end token recovers the single-sequence tail |
| BatchDecode.PaddingUnseen | src/swlp/runner/batch.py:135-147 | left padding is not attended to |
| Residency.PlanMonotone | src/swlp/core/residency.py:101-169 | more memory or a higher ratio never plans fewer resident layers, through both interpolations, rounding, clamps and the whole-model jump |
| Residency.PlanGrowsWithMemory | src/swlp/core/residency.py:125-130 | so more total or free memory, or unknown free memory, never plans fewer |
| Residency.AllResidentWhen | src/swlp/core/residency.py:125-152 | every layer is resident exactly when the model fits three quarters of what the two reserves leave |
| Residency.PlanUsesMemory | src/swlp/core/residency.py:139-156 | otherwise the plan is the policy's count, or as many layers as fit if those are fewer |
| Residency.PlanResidency | src/swlp/core/residency.py:101-169 | resident bytes fit the usable memory; layers split exactly into resident and streaming, and so do the bytes |
| Residency.PolicyMonotone | src/swlp/core/resident_policy.py:113-164 | the policy count is monotone in memory and in ratio |
| Residency.PolicyFitsMemory | src/swlp/core/resident_policy.py:94-110 | the count fits 80% of memory exactly when two layers do |
| Residency.PolicyUsesMemory | src/swlp/core/resident_policy.py:94-164 | the count falls short of the rounded policy only where one layer more would exceed 80% of memory, or the maximum |
| Residency.GridIsMeasured | src/swlp/core/resident_policy.py:31-83 | at every measured ratio and memory size the policy is the measured count |
| Residency.InterpIsPiecewiseLinear | src/swlp/core/resident_policy.py:64-83 | interpolation goes through every anchor, is straight between neighbours and flat outside |
| Residency.RoundIsNearest | src/swlp/core/resident_policy.py:149-149 | rounding is to the nearest integer, to the even one halfway |
| Residency.PolicyCanExceedMemory | src/swlp/core/resident_policy.py:144-147 | with layers of 1 GB and 1 GB of memory the count is two, at every ratio |
| Residency.EstimateResidentCount | src/swlp/core/resident_policy.py:113-164 | the loop over ratio anchors computes the policy count, never above its limit |
| Residency.Interp1d | src/swlp/core/resident_policy.py:72-83 | the scan finds the segment and interpolates |
| Residency.InterpMonotone | src/swlp/core/resident_policy.py:64-83 | interpolation is monotone along a rising row |
| Residency.InterpValues | src/swlp/core/resident_policy.py:64-83 | and in its values |
| Residency.GridRises | src/swlp/core/resident_policy.py:31-43 | the calibrated grid rises along both axes |
| Overlap.SimulateToken | src/swlp/benchmark/simulator.py:107-139 | for every window of at least one: `t + (n-1)*max(c,t) + c` per token and a stall of `min(c,t)` when overlapped, `n*(c+t)` and none when not; a smaller window fails |
| Overlap.TokenTime | src/swlp/benchmark/simulator.py:107-131 | layer `i` starts at `t + i*max(c,t)`, whatever the window |
| Overlap.OverlapSaves | src/swlp/benchmark/simulator.py:107-139 | overlapping saves `(n-1)*min(c,t)` |
| Overlap.StallIsMin | src/swlp/benchmark/simulator.py:135-138 | time beyond the busier resource is one run of the other |
| Overlap.ClassifyRun | src/swlp/benchmark/simulator.py:154-159 | a run is blamed on transfers exactly when it overlaps, fits, has fewer than five layers, and `t >= c > 0` |

## Left out

- Tensor kernels, activations, hashing and compression internals: functions, with the hypotheses stated above.
- Wall-clock time, file descriptors, memory maps, page-cache hints, thread pools, locks and timeouts: steps, parameters and nondeterministic completion.
- Traces, printing, peak-memory figures, profilers, reports, statistics dictionaries, the command line, the server and model download.
- The simulator's upload latency is one positive number per count of loaded layers; `PipelineModel.EffectiveUpload` is the source's formula, with the power of five a parameter.
- Sampling and the repetition penalty in batched decoding; in speculative decoding the pick may depend on all tokens so far, so a penalty is covered.
- The multi-token-prediction drafter: any token list is allowed as a draft, so the result covers it.
- The source starts with empty recurrent and convolution states created on first use; the model starts with given ones. A sweep is recorded also for caches with attention layers only, where the source skips it.
- INT4 quantisation and spill or load failures in the key/value store, and tensors that are partly absent.
- Quantise-on-load in the expert cache: a fixed conversion is part of the read; switching it on later is not modelled.
- ExpertManager.ExpertScheduler.Ensure: does not model a read that raises because the bank's dtype is wrong.
- ExpertManager.ExpertScheduler.SetBudget: resizes the layers by recursion over the set of them, in any order, instead of a loop.
- StreamScheduler.StreamingScheduler.Evict: does not model a move to the meta device that raises.
- Routing prediction and its history: they only choose what to prefetch.
- Binary-heap layout: a heap is a list from which a least entry is taken.
- StreamScheduler.StreamingScheduler.Ensure: does not model cleanup, or a layer index outside the model.
- The simulator's queue of ready layers is a set: its order is never read.
- Striping of shards over volumes and legacy archives in the shard protocol; integrity reports; the text of error messages.
- Startup calibration, confidence and the explanation attached to a residency decision: reporting.
- Transfer seconds from bandwidths, and an infinite transfer time when a bandwidth is zero.
