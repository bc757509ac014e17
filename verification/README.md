# Quorum: a verified model of its hard parts

This project models the concurrent and algorithmic core of Quorum in Dafny 4.11 and proves what that code is
for. Run `dafny verify dfyconfig.toml` in this directory.

Concurrency is modelled as the code has it: awaits are the only points where another piece of work can run, so an
action of a state machine is the code between two awaits, and any enabled action may come next. Theorems quantify
over every finite sequence of actions. Beside each state machine stands a class whose fields are the variables the
code shares; each of its methods is one action, and its contract says that it does exactly what the state machine
does. Loops of the source are loops here.

| files | what they model |
|---|---|
| `RetrieveModel`, `RetrieveInvariant`, `RetrieveReport`, `RetrieveBound`, `RetrieveSchedules`, `RetrieveOvershoot`, `RetrieveFailures`, `RetrieveOutcomes`, `RetrieveDecisions`, `RetrievePool` | the worker pool that shares a record budget (`retrieveAll`), also when writes fail |
| `JobsModel`, `JobsInvariant`, `JobsSteps`, `JobsSubmit`, `JobsHistory`, `JobsGuarantees`, `JobsTheorems`, `JobsOverwrites`, `JobsReports`, `JobsRuns`, `JobsRetention`, `JobsRepeats`, `JobsAnswers`, `JobsStates`, `JobsOrder`, `JobsTelling`, `JobsLogs`, `JobsWitness`, `JobQueue` | the coalescing job queue (`createJobQueue`) |
| `EventStream`, `ReportStream`, `EventFrames`, `StandardFrames` | the resumable event stream: log, waiters, server loop, frame printer, chunked client, and a reader of section 9.2.6 of the WHATWG HTML Living Standard |
| `Voices` | near-duplicate voices: signatures, union-find with path halving |
| `EditDistance` | two-row Levenshtein and the suggestions built on it |
| `Spread`, `SpreadOrder`, `EvidenceLines`, `EvidenceBlock` | the evidence book: rotation over channels, ordinals, the printed block, and the way back |
| `ClaimEvidence` | the sample of receipts shown for a claim |
| `FlatRows`, `FlatReading`, `Csv` | a run result as flat rows and what a reader gets back out of them, the CSV printer, and a reader of section 2 of RFC 4180 that inverts it |
| `Corroborate`, `CorroborateVerdicts`, `CorroborateExact`, `CorroborateWitness` | counting independent records for and against a term |
| `Quotas` | fixed windows rolled on read |
| `Basics`, `Sorting`, `Text`, `Decimal`, `Corpus` | sums, stable sorting, joining and splitting texts, decimal numerals, corpus rows |

## What the proofs found

Each of these is a property the code's comments suggest and that does not hold without a condition. The code is
modelled as it is, the failing case is exhibited, and the condition is proved.

- The total record cap (a hard cap, says the comment at lines 303 to 311 of `retrieve.ts`) holds on every schedule
  the code can run, while no write and no iterator's `return()` fails, exactly when there is room for one record per
  source, or a single worker, or the cap, the per-source cap or the query limit is zero. No such schedule stores
  more than the greater of the cap and min(sources, cap + workers - 1), and in every other configuration a schedule
  that starts all workers first, as `Promise.all` does, stores exactly that many.
- A failed write leaves its batch in place, so another query can take the source past its budget, and `unflushed`
  without it, so the cap test no longer sees all that is batched. When writes may fail, the cap holds on every
  schedule exactly when the cap or the query limit is zero, or all sources together may store no more than the
  cap, or each source asks a single query and there is room for one record per source.
- A failed write is to be a degraded query, not a dead run (lines 318 to 321), but the last flush of a source stands
  outside the `try`: the retrieval rejects exactly when that flush has failed. It has something to write only where
  an earlier query of the source failed.
- `pump` drops an emptied run's key without the identity check made in the two other places (line 552 of `jobs.ts`).
  If the key was asked for again meanwhile, a live run loses its registration. A drop, a pump, an action and a whole
  trace keep runs coalesced exactly when every key dropped is free; with the check every drop is.
- A report cancelled while its claims are computed is completed and delivered all the same (lines 538 to 540), and
  its log then holds a terminal event that is not its last. Whether that can happen is decided at the moment of the
  cancel: a cancel stands in every continuation exactly when its run was not then waiting for that report's claims.
  Such a report is over anew, so exactly then it may be held for longer than the retention after it was first over.
- So an aborted run can still settle somebody: when the last caller leaves while the run settles, the report in hand
  is completed afterwards. It is the only one: no other action changes the status of any report of an aborted run.
- A report that joins a run while it settles is never settled (line 518 has already copied the list); whatever
  happens, nothing but its own cancel ever ends its wait.
- A finding can be unmade by supporting rows: support silences a receipt on the other side and may uncover a copy of
  its text from another channel. A finding survives all further support exactly when fewer opposing rows count than
  the threshold, or the opposing rows, each with a text of its own that no supporting row has, come from fewer
  channels than the floor however they are chosen; the most channels such a choice has is a number that can be
  computed from the rows. At the default floor of two it survives exactly when too few opposing rows count, or those
  whose text no supporting row has, repeats included, all come from one channel. Where a receipt has one text it
  always survives.
- The evidence block reads back line by line exactly when there is a record and no source or channel name shown holds
  a newline. Texts are cleaned of newlines (lines 85 to 88 of `synthesise.ts`), channel names are
  printed as they come (lines 155 to 162), and a product name of two lines can show one review's text on a line whose
  first word leads to another review's receipt.
- The rows of a claim are to regroup to its counts, being the same set of ids (lines 18 to 25 of `formats.ts`), but
  what is shown is a sample. They carry every id exactly when the sample has room for every receipt, and are as many
  as the records that count exactly when the sample is of that size, or nothing is left out and no text is repeated.

## Model

| member | source | states |
|---|---|---|
| RetrievePool.RetrievalPool.LoopTop | packages/core/src/retrieve.ts:399-407 | the head of a worker's loop: return when nothing is left or the pool has stopped, test cancel, clock and cap in that order, else take the next source |
| RetrievePool.RetrievalPool.StartSource | packages/core/src/retrieve.ts:167-200 | the source is promised its fair share, at least one and at most the per-source cap; an unconfigured one is reported and gives its promise back |
| RetrievePool.RetrievalPool.PlanFails | packages/core/src/retrieve.ts:203-218 | planning throws: a degraded outcome, a hole, and the whole budget returned |
| RetrievePool.RetrievalPool.PlanReturns | packages/core/src/retrieve.ts:203-228 | planning returns its queries, cut to the query limit; none at all is a hole |
| RetrievePool.RetrievalPool.NextQuery | packages/core/src/retrieve.ts:241-250 | the five tests between queries, in order, and what each leaves in the shared variables |
| RetrievePool.RetrievalPool.StartFlush | packages/core/src/retrieve.ts:231-234 | a flush takes its batch out of `unflushed` before it awaits; an empty one returns at once |
| RetrievePool.RetrievalPool.Record | packages/core/src/retrieve.ts:253-302 | one record: counted, gated or batched, a full batch flushed |
| RetrievePool.RetrievalPool.CheckLimits | packages/core/src/retrieve.ts:301-312 | the three tests after a kept record, each of which leaves the loop with the batch still counted as unflushed |
| RetrievePool.RetrievalPool.IteratorClosed | packages/core/src/retrieve.ts:301-323 | leaving a `for await` waits for the iterator to return; only then is the batch flushed |
| RetrievePool.RetrievalPool.RetrieveEnds | packages/core/src/retrieve.ts:313-323 | a query that ends flushes what it has |
| RetrievePool.RetrievalPool.RetrieveThrows | packages/core/src/retrieve.ts:324-332 | a query that throws degrades the source and keeps its batch |
| RetrievePool.RetrievalPool.CloseFails | packages/core/src/retrieve.ts:312-332 | the iterator of a loop that was left throws instead of returning: the query fails with its batch still counted as unflushed |
| RetrievePool.RetrievalPool.Wrote | packages/core/src/retrieve.ts:234-239 | the corpus has stored some of the batch: the promise shrinks by as much as the totals grow, and the flush returns |
| RetrievePool.RetrievalPool.WriteFails | packages/core/src/retrieve.ts:231-239 | the corpus stores nothing and throws: the batch stays in place, out of `unflushed`, and the query, or in the last flush the worker, fails |
| RetrievePool.RetrievalPool.Caught | packages/core/src/retrieve.ts:324-332 | a failed flush reaches the query's `catch`, and the next query goes on with the batch |
| RetrievePool.RetrievalPool.FlushReturns | packages/core/src/retrieve.ts:300-342 | each of the three awaits of a flush goes on by itself: the tests after a record, the next query, or the end of the source |
| RetrievePool.RetrievalPool.FinishSource | packages/core/src/retrieve.ts:364-387 | an outcome is classified and reported, with a hole unless it wrote something or all it saw was held, and the slack is returned |
| RetrievePool.RetrievalPool.Conclude | packages/core/src/retrieve.ts:411-453 | from any schedule's end: every source once in registry order, a hole for exactly the barren ones, totals that are the sums over outcomes |
| RetrievePool.RetrievalPool.ReportNeverRan | packages/core/src/retrieve.ts:435-453 | each source without an outcome gets a skipped one and a hole, in registry order |
| RetrieveOutcomes.OutcomeExactly | packages/core/src/retrieve.ts:174-387 | told from the schedule alone: an outcome's counts are those of its source's actions; if it planned a query it is ok if and only if no query, write or close of it failed and it stored a record or saw one that passed the gate; if not it is skipped if and only if the source is not configured, and never ok |
| RetrieveOutcomes.HoleExactly | packages/core/src/retrieve.ts:188-383 | a hole says why: not configured, planning failed, no queries, all off topic, a query that failed, or nothing at all, in that order of precedence |
| RetrieveDecisions.AsksExactly | packages/core/src/retrieve.ts:241-250 | a query is asked exactly when one is left, nobody has stopped the run, and source, budget and cap have room for a record |
| RetrieveDecisions.ReadsOnExactly | packages/core/src/retrieve.ts:253-312 | after a record the source reads on if that was off topic, flushes if the batch is full, and else reads on exactly when there is room |
| RetrieveDecisions.ResumesExactly | packages/core/src/retrieve.ts:300-342 | after a flush in the middle of a query likewise; after the others the next query, or the end of the source |
| RetrieveDecisions.StopsExactly | packages/core/src/retrieve.ts:244-312 | the pool is stopped by a cancel, else by the clock, else by the cap, where each is tested and by nothing else; and a worker leaves its loop exactly then |
| RetrieveDecisions.BudgetIsFairShare | packages/core/src/retrieve.ts:167-171 | a source is promised the least number that, given to every source still to come, uses up what is neither written nor promised; at least one, at most the per-source cap |
| RetrieveDecisions.WorkerCount | packages/core/src/retrieve.ts:409 | no more workers than asked for or than there are sources, and at least one |
| RetrieveDecisions.BatchesAreFull | packages/core/src/retrieve.ts:300 | while no write and no close fails, a flush in the middle of a query has exactly a full batch |
| RetrieveDecisions.ReportExactly | packages/core/src/retrieve.ts:411-453 | in the report of any finished run: outcomes and holes of the sources that ran say what the schedule did to them, those never reached are blank and say so, and the cap is announced if nothing else stopped the run and it was reached |
| RetrieveInvariant.MoveBalances | packages/core/src/retrieve.ts:231-239 | whatever a stretch does, the totals change by what the worker and its outcome change |
| RetrieveInvariant.MoveKeepsBudget | packages/core/src/retrieve.ts:231-387 | a source in its budget stays there, and `reserved` changes by what it owes, in every stretch that is no failed write or close, and in every stretch if sources ask a single query |
| RetrieveInvariant.MoveKeepsEven | packages/core/src/retrieve.ts:231-312 | and `unflushed` changes by what the worker has batched and is not flushing, in every stretch that is no failed write or close |
| RetrieveInvariant.RunSound | packages/core/src/retrieve.ts:154-409 | after every schedule, whatever fails: the totals are the sums over outcomes and workers, every source taken is with a worker or reported once, the holes are the barren sources, and what is not written or promised covers the shares still to come |
| RetrieveInvariant.RunThrifty | packages/core/src/retrieve.ts:231-387 | while no write and no close fails, or with a single query a source: no source goes past its budget, and `reserved` is the sum of budgets not yet written |
| RetrieveInvariant.RunInv | packages/core/src/retrieve.ts:154-409 | while no write and no close fails: all of that, `unflushed` is the sum of the batches not being flushed, and promises fit the cap where there is room for all |
| RetrieveInvariant.PromiseCoversBatches | packages/core/src/retrieve.ts:231-312 | every batch is covered by a promise, also while its flush is awaiting and it is in neither counter the cap test reads |
| RetrieveInvariant.BudgetShares | packages/core/src/retrieve.ts:167-171 | a take gets at least its share of the cap and leaves every later source theirs (ceiling division) |
| RetrieveInvariant.CapReachedMeansAllTaken | packages/core/src/retrieve.ts:404 | with room for one record per source, written and promised records reach the cap only once every source is taken |
| RetrieveReport.RestingBooks | packages/core/src/retrieve.ts:387-409 | when every worker has returned the totals are the outcomes'; nothing is promised if budgets were kept, and nothing counted as batched if no write and no close failed |
| RetrieveReport.OutcomesInRegistryOrder | packages/core/src/retrieve.ts:411-413 | the sorted outcomes are those of sources 0, 1, 2 and so on, each once |
| RetrieveReport.EverySourceReportedOnce | packages/core/src/retrieve.ts:411-453 | every source is reported once whatever failed and whatever stopped the run; it has a hole exactly when it wrote nothing and is not ok; a run that reached its cap says so |
| RetrieveBound.OvershootBound | packages/core/src/retrieve.ts:167-171 | on every schedule no source exceeds its own cap, and while no write and no close fails the total is at most the greater of the cap and min(sources, cap + workers - 1) |
| RetrieveReport.HardCap | packages/core/src/retrieve.ts:298-312 | while no write and no close fails the cap is never exceeded on any schedule of a hard configuration |
| RetrieveReport.NoSourceStarves | packages/core/src/retrieve.ts:155-170 | whatever fails, whoever is next is promised at least its share; and while no write and no close fails the record cap never leaves a source untaken: only the clock or a cancel can |
| RetrieveOvershoot.Overshoots | packages/core/src/retrieve.ts:398-409 | in every other configuration a schedule the code can run, with every worker started first, stores exactly that bound, which is more than the cap |
| RetrieveOvershoot.CapHoldsExactlyWhenHard | packages/core/src/retrieve.ts:303-312 | the cap holds on all schedules the code can run without a failed write or close if and only if the configuration is a hard one |
| RetrieveFailures.CapHoldsWhateverFailsExactly | packages/core/src/retrieve.ts:231-332 | the cap holds on all schedules the code can run, failures included, if and only if nothing can be stored, all sources together have room, or each asks one query and has room for a record |
| RetrieveFailures.OneQueryKeepsCap | packages/core/src/retrieve.ts:167-171 | with a single query a source and room for a record of each, the promises bound what is stored whatever fails |
| RetrieveFailures.CrowdedOvershoots | packages/core/src/retrieve.ts:321-332 | with two queries and room for a record of each source but not for all of all, one failed write leads past the cap |
| RetrieveFailures.AloneOvershoots | packages/core/src/retrieve.ts:231-239 | with one worker and less room than sources, one failed write leaves `unflushed` one behind, the cap test passes at the cap, and one more record is stored |
| RetrieveFailures.RunDiesExactly | packages/core/src/retrieve.ts:321-342 | the pool rejects, and never comes to report, exactly when the last flush of a source has failed |
| RetrieveFailures.LastFlushIsARetry | packages/core/src/retrieve.ts:324-342 | a last flush has a batch to write only where a query of its source has failed |
| RetrieveFailures.FailingTwiceIsFatal | packages/core/src/retrieve.ts:321-342 | a schedule on which a write fails, and fails again when it is retried, and the whole retrieval rejects |
| Sorting.Stable | packages/core/src/retrieve.ts:412-413 | the library's sort: ordered by key, the same elements, equal keys in their old order |
| Sorting.OnlyStableArrangement | packages/core/src/synthesise.ts:120 | that promise has one answer |
| Sorting.TwoKeys | packages/core/src/corroborate.ts:195-197 | sorting by one key and then, stably, by another orders by the second and, where that ties, by the first |
| Sorting.SortKeepsOrder | packages/core/src/synthesise.ts:118-120 | of two elements with equal keys the earlier stays the earlier |
| JobQueue.JobQueue.Sweep | packages/server/src/jobs.ts:680-694 | expired idempotency keys, and reports over for longer than the retention, are forgotten, and nothing else |
| JobQueue.JobQueue.Submit | packages/server/src/jobs.ts:677-808 | a submit up to its first await: sweep, replay, the two refusals, admission |
| JobQueue.JobQueue.Admit | packages/server/src/jobs.ts:736-808 | an admitted report is attached, noted under its key, and the queue pumped; the caller is told the position before the pump |
| JobQueue.JobQueue.JoinOrOpen | packages/server/src/jobs.ts:736-795 | a registered run is joined, and plans the new terms if it has not started; else a run is opened, registered and queued |
| JobQueue.JobQueue.AttachReport | packages/server/src/jobs.ts:777-795 | the report's deferred terms and status come from the run it attaches to |
| JobQueue.JobQueue.PlanTerms | packages/server/src/jobs.ts:752-754 | each new term once, in order |
| JobQueue.JobQueue.Pump | packages/server/src/jobs.ts:547-595 | waiting runs start while there is room; emptied ones are dropped |
| JobQueue.JobQueue.PumpOnce | packages/server/src/jobs.ts:549-564 | one waiting run: dropped together with its key, or started with its plan frozen and its reports running |
| JobQueue.JobQueue.EmitToRun | packages/server/src/jobs.ts:424-429 | an event goes to each attached report still held |
| JobQueue.JobQueue.RunEnds | packages/server/src/jobs.ts:576-584 | a run that ends frees its place and starts settling a copy of its list |
| JobQueue.JobQueue.SettleFrom | packages/server/src/jobs.ts:517-522 | the settle loop to its next await: skip who left, fail who has no outcome |
| JobQueue.JobQueue.FinishReport | packages/server/src/jobs.ts:470-475 | status, time and terminal event in one stretch |
| JobQueue.JobQueue.Announces | packages/server/src/jobs.ts:531-537 | provisional findings are published unless the caller has left |
| JobQueue.JobQueue.ClaimsReady | packages/server/src/jobs.ts:538-540 | the claims arrive and the report completes, whatever happened to it meanwhile |
| JobQueue.JobQueue.ClaimsFail | packages/server/src/jobs.ts:541-543 | the claims throw and the report fails |
| JobQueue.JobQueue.Persisted | packages/server/src/jobs.ts:486-507 | after the snapshot, a delivery to the report's own url, or the return of `finishReport` |
| JobQueue.JobQueue.Enqueued | packages/server/src/jobs.ts:500-508 | after the delivery is durable, the return of `finishReport` |
| JobQueue.JobQueue.FinishReturns | packages/server/src/jobs.ts:518-543 | the settle loop goes on with the next report |
| JobQueue.JobQueue.SettleEnds | packages/server/src/jobs.ts:584-591 | the settled run leaves the registry if it is still the one registered, and the queue is pumped |
| JobQueue.JobQueue.Cancel | packages/server/src/jobs.ts:840-860 | the report is cancelled and detached; the run is aborted and unregistered only if nobody is left |
| JobsInvariant.PumpInv | packages/server/src/jobs.ts:547-595 | pumping keeps the invariant |
| JobsSteps.CancelInv | packages/server/src/jobs.ts:840-860 | cancelling keeps the invariant |
| JobsSteps.AdvanceInv | packages/server/src/jobs.ts:511-545 | the settle loop keeps the invariant |
| JobsSubmit.TraceInv | packages/server/src/jobs.ts:378-895 | the invariant holds after every trace, with and without the missing identity check |
| JobsHistory.TraceGrows | packages/server/src/jobs.ts:378-895 | over any continuation, logs, finished reports and deliveries only grow, and no settled or planned thing is undone |
| JobsReports.ReportChangesExactly | packages/server/src/jobs.ts:414-545 | over every trace, from a report's own side: what ends it, with what status, time and last event; what it is told on the way; when it starts; and when it is forgotten. Nothing else of it ever changes |
| JobsRuns.RunChangesExactly | packages/server/src/jobs.ts:511-795 | over every trace, from a run's own side: how far it is and with what outcome, whose terms it plans, whom it lists, and whom it serves next |
| JobsRuns.PumpTakesFirst | packages/server/src/jobs.ts:547-556 | pumping takes runs from the front of the queue until nothing waits or there is no room, starts those somebody waits for, and changes no other |
| JobsRuns.AddTermsAddsNew | packages/server/src/jobs.ts:752-754 | a joiner adds each of its terms that is not planned, once and in order |
| JobsRuns.MissingIsUnplanned | packages/server/src/jobs.ts:750 | what is deferred is the terms that are not planned, in order |
| JobsAnswers.SubmitAnswersExactly | packages/server/src/jobs.ts:677-829 | in every reachable state, told from the fields it finds: a submit is answered from a note that has not expired and whose report is held, or refused with 409, 429 or 503 exactly under these conditions, and then takes nothing; else it takes one report, which is as described, and is told its id, whether it coalesced, what is deferred, and its place in the queue |
| JobsStates.ReportsFitTheirRuns | packages/server/src/jobs.ts:470-795 | in every reachable state a report in flight is running exactly if its run has started and it did not come after the run had ended; who is over has an error as last event if failed and else a done; only runs that completed complete reports; and a run has the key of all its reports, and the initiator and terms of the one that opened it |
| JobsOrder.NobodyOvertakes | packages/server/src/jobs.ts:547-559 | in every reachable state runs wait in the order they were opened, and none has started that was opened after one that waits |
| JobsOrder.WaitsOnlyForRoom | packages/server/src/jobs.ts:547-595 | in every reachable state, if a run waits while there is room, a run that has ended is still settling, and will pump |
| JobsOrder.RunsAreOpenedInTurn | packages/server/src/jobs.ts:736-775 | every run was opened by one report that did not coalesce, and later runs by later reports |
| JobsGuarantees.DiscardKeepsCoalescedExactly | packages/server/src/jobs.ts:552 | the unguarded removal keeps runs coalesced if and only if the key is free |
| JobsGuarantees.PumpCoalescedExactly | packages/server/src/jobs.ts:547-595 | pumping keeps every live, waited-for run the one its key names if and only if each run it drops has a free key |
| JobsGuarantees.StepCoalescedExactly | packages/server/src/jobs.ts:547-595 | and so does an action, judged at the pump it leads to |
| JobsGuarantees.CoalescesExactly | packages/server/src/jobs.ts:547-595 | runs are coalesced in every state of a trace if and only if every drop in it was free |
| JobsGuarantees.Coalesces | packages/server/src/jobs.ts:547-595 | they are on all traces with the identity check, and as written while no queued run loses its last report |
| JobsGuarantees.OneRunPerKey | packages/server/src/jobs.ts:736-775 | while every drop is free, two live runs somebody waits for never share a key |
| JobsWitness.CoalescingCanBeLost | packages/server/src/jobs.ts:552 | a trace of the queue as written after which a live, waited-for run is not the one its key names |
| JobsTheorems.QueueBounds | packages/server/src/jobs.ts:547-611 | in every reachable state the counter is the number of running runs and within its limit, no run waits twice, the queue is within its limit, no caller has more reports queued or running than a key may have, and the unchecked lookup of a starting run's report succeeds |
| JobsTheorems.FinishedOnceDeliveredOnce | packages/server/src/jobs.ts:470-509 | a report is finished at most once and delivered at most once, only after finishing and only to its own url |
| JobsTheorems.FinishedIsForever | packages/server/src/jobs.ts:470-475 | complete and failed are never left, and logs only grow |
| JobsTheorems.SettledLeavesOnlyLateJoiners | packages/server/src/jobs.ts:511-545 | when a run has settled, its reports still in flight are exactly those that joined while it settled and were not cancelled |
| JobsTheorems.LateJoinerWaitsForever | packages/server/src/jobs.ts:518 | such a report stays in flight, and its run settled, through any continuation without its own cancel |
| JobsTheorems.LogEndsExactlyWhenOver | packages/server/src/jobs.ts:470-475 | a log ends with a terminal event exactly when its report is over, and a live log holds none |
| JobsTheorems.AbortedExactlyWhenAbandoned | packages/server/src/jobs.ts:840-860 | a run is aborted if and only if nobody is attached, and then no key leads to it |
| JobsTheorems.OnlyTheLastCancelAborts | packages/server/src/jobs.ts:849-857 | the only action that aborts a run is the cancel of its last report |
| JobsTheorems.AbortedIsForever | packages/server/src/jobs.ts:854-857 | an aborted run stays aborted and never gains a report |
| JobsTheorems.InFlightIsAttached | packages/server/src/jobs.ts:777-795 | a report in flight is always in its run's list |
| JobsTheorems.AbortedWhileRetrieving | packages/server/src/jobs.ts:511-521 | a run aborted while it retrieves changes no report when it ends |
| JobsTheorems.AbortedSettlesOnlyInHand | packages/server/src/jobs.ts:516-543 | a report of an aborted run changes status exactly when the claims in hand for it arrive or fail; it was cancelled, and then is finished |
| JobsWitness.AbortedRunCompletes | packages/server/src/jobs.ts:538-540 | a trace in which a run, aborted by its only caller while it settles, completes that caller's report |
| JobsTheorems.CancelledIsOverwrittenExactly | packages/server/src/jobs.ts:538-543 | a cancelled report leaves that status exactly when the claims being computed for it arrive or fail |
| JobsOverwrites.CancelStandsExactly | packages/server/src/jobs.ts:518-543 | a cancel stands after every continuation if and only if, when it was made, the report's run was not waiting for that report's claims |
| JobsWitness.CancelOverwrittenAndJoinerLeft | packages/server/src/jobs.ts:518-540 | one trace that completes and delivers a cancelled report and leaves a late joiner queued with the queue idle |
| JobsTheorems.PlanIsTheUnion | packages/server/src/jobs.ts:742-775 | a run plans exactly the terms of the reports that joined before it started |
| JobsTheorems.PlanIsFrozen | packages/server/src/jobs.ts:557-559 | a started run's plan never changes |
| JobsTheorems.QuestionsSplit | packages/server/src/jobs.ts:743-755 | each term of a report is planned by its run or deferred to it, never both and never neither |
| JobsRepeats.RepeatedSubmit | packages/server/src/jobs.ts:677-729 | whatever happens in between, a repeat under the key is answered with the first report and its first answer exactly while no submit found the note expired, the report is held and the body is the same; it then takes nothing, and another body is a 409 |
| JobsRetention.HeldExactly | packages/server/src/jobs.ts:691-694 | over any continuation of a trace a held report is still held if and only if no submit in it found the report over for longer than the retention |
| JobsRetention.KeptForRetentionExactly | packages/server/src/jobs.ts:691-694 | for a held report that was over at a time c: over every continuation it is held exactly until a submit comes after c plus the retention, if and only if its run is not computing its claims at that moment |
| JobsTelling.DeliveredExactly | packages/server/src/jobs.ts:486-508 | over every trace a report is delivered if and only if it has finished, asked for it, and its snapshot is not being written |
| JobsTelling.FindingsToldOnce | packages/server/src/jobs.ts:530-540 | when the claims of a report arrive, their findings are told if and only if none were published before, and then the report is done |
| JobsLogs.TerminalIsLastExactly | packages/server/src/jobs.ts:511-545 | over every trace a log's terminal event is its last if and only if no claims arrived for the report after it was cancelled |
| ReportStream.ReportStream.Emit | packages/server/src/jobs.ts:414-422 | the next id, one version more, and every waiter of that moment woken with the event and gone from the list |
| ReportStream.ReportStream.EventsSince | packages/server/src/jobs.ts:862-866 | the filter is the suffix of the log after that id |
| ReportStream.ReportStream.NextEvent | packages/server/src/jobs.ts:868-877 | the first event after the cursor, or the end if the report is over, or a waiter |
| ReportStream.ReportStream.Connect | packages/server/src/http.ts:1099-1150 | 404 for a report not held; else replay after the header, stand at the end of the log, and ask |
| ReportStream.ReportStream.Write | packages/server/src/http.ts:1149-1157 | write the event, move the cursor to it, stop after a terminal one, else ask again |
| ReportStream.ReportStream.Drop | packages/server/src/jobs.ts:878-882 | a closed request takes its waiter off the list |
| EventStream.RunInv | packages/server/src/http.ts:1113-1157 | for any number of clients and any sequence of events, connects, drops and resumes: every connection has written the log from its resume point without a gap |
| EventStream.ExactlyOnce | packages/server/src/http.ts:1113-1157 | ids are 1 to n and version is n; each connection wrote a slice of the log that starts at its header; who always resumes from the last id received holds a prefix of the log |
| EventStream.LogIsWhatWasEmitted | packages/server/src/jobs.ts:414-418 | the log is what was emitted, in order, numbered from 1, and the report is over exactly once it holds a done or an error |
| EventStream.NobodyWaitsPastAnEvent | packages/server/src/jobs.ts:868-884 | a waiting connection has written everything, and one that was woken holds exactly the next event |
| EventStream.EndsOnlyWhenComplete | packages/server/src/http.ts:1146-1157 | the server ends a stream only when the report is over; unless the report was forgotten by then, the log as it was at that moment is written to its end if its terminal event was its last, and that stays so whatever is emitted or forgotten later |
| EventStream.OnlyGrows | packages/server/src/jobs.ts:414-422 | nothing emitted or received is taken back |
| EventStream.CatchesUp | packages/server/src/http.ts:1149-1157 | a connection that is not dropped reaches the end of the log by its own steps |
| EventStream.ArrivedTextIsLog | packages/server/src/http.ts:1128-1142 | what a client can parse from any prefix of a connection's text, heartbeats anywhere, is the log from its resume point, cut after some event |
| EventFrames.StreamReport | packages/sdk-js/src/index.ts:361-375 | for every way of cutting the text into chunks, the events of the whole text split at blank lines |
| EventFrames.Drain | packages/sdk-js/src/index.ts:367-374 | takes exactly the complete frames off the buffer |
| EventFrames.ParseFrame | packages/sdk-js/src/index.ts:382-399 | id, type and data of a frame line by line; nothing for a frame without data |
| EventFrames.FramesAppend | packages/sdk-js/src/index.ts:361-375 | splitting a text is splitting a part and then what was left of it with the rest |
| EventFrames.FrameReadsBack | packages/server/src/http.ts:1128-1130 | a printed frame parses to its event |
| EventFrames.HeartbeatIsDropped | packages/server/src/http.ts:1142 | a comment frame yields no event |
| EventFrames.RoundTrip | packages/server/src/http.ts:1128-1142 | parsing what the server printed, heartbeats anywhere, returns the events written, in order, and leaves nothing |
| EventFrames.CutIsPrefix | packages/sdk-js/src/index.ts:361-375 | a text cut after any character yields a prefix of the events |
| StandardFrames.StandardReadsAll | packages/server/src/http.ts:1128-1142 | a reader of the standard, given everything printed, dispatches every event written, once and in order, with its id, its type and its data, and nothing for a heartbeat |
| StandardFrames.EndsByType | packages/server/src/http.ts:1154-1156 | a reader can tell by its type whether an event ends the report, and how |
| Voices.TextSignature | packages/core/src/voices.ts:54-74 | each lane holds the least hash of any shingle |
| Voices.EstimatedJaccard | packages/core/src/voices.ts:76-80 | the number of lanes that agree |
| Voices.SameVoiceExactly | packages/core/src/voices.ts:76-115 | the count is that of the lanes in which two signatures agree, and two texts are one voice exactly when at most 12 of the 64 differ |
| Voices.ShinglesExactly | packages/core/src/voices.ts:54-64 | the shingles are the runs of three words, joined by blanks; fewer words make one of their own, and none make none |
| Voices.CopiesAreOneVoice | packages/core/src/voices.ts:54-80 | texts with the same shingles are near duplicates of each other |
| Voices.HalvingKeepsForest | packages/core/src/voices.ts:104-110 | a halving step keeps the forest, moves no root and goes strictly down |
| Voices.Find | packages/core/src/voices.ts:104-110 | terminates at the node's root, with the tree flatter and every root where it was |
| Voices.LinkKeepsForest | packages/core/src/voices.ts:116 | hanging one root under another keeps the forest and merges exactly those two trees |
| Voices.Consider | packages/core/src/voices.ts:114-117 | after a pair, same root still means connected, and every pair so far that is an edge has one root |
| Voices.AllProcessed | packages/core/src/voices.ts:112-119 | after all pairs, same root if and only if connected |
| Voices.Cluster | packages/core/src/voices.ts:102-122 | the roots count the connected components |
| Voices.CountVoices | packages/core/src/voices.ts:89-124 | independent voices are the connected components of the near-duplicate graph on distinct receipts, and with the collapsed ones make up all receipts |
| EditDistance.DistanceIsLeastCost | packages/mcp/src/tools.ts:94-100 | the recurrence is the least cost of any script of insertions, deletions and substitutions |
| EditDistance.CostCountsChanges | packages/mcp/src/tools.ts:94-100 | what a script costs is the number of its edits that change something |
| EditDistance.ZeroExactlyWhenEqual | packages/mcp/src/tools.ts:90 | distance zero if and only if equal |
| EditDistance.Symmetric | packages/mcp/src/tools.ts:89-104 | the distance is symmetric |
| EditDistance.Triangle | packages/mcp/src/tools.ts:89-104 | the triangle inequality, by composing scripts |
| EditDistance.ReversedDistance | packages/mcp/src/tools.ts:92-102 | reversing both strings changes nothing, which is why rows over prefixes compute the recurrence over suffixes |
| EditDistance.NextRow | packages/mcp/src/tools.ts:93-101 | one row from the row above |
| EditDistance.Levenshtein | packages/mcp/src/tools.ts:89-104 | the two-row loop returns the least cost of any script |
| EditDistance.SuggestedExactly | packages/mcp/src/tools.ts:113-123 | a name is suggested exactly when it is held where fewer than three near names come before it, and two edits turn the question into it or they share a word of three letters |
| Corpus.FirstRowsAreRows | packages/core/src/voices.ts:91-97 | dedup by receipt keeps rows of the input, one a receipt |
| Corpus.EveryReceiptHasARow | packages/core/src/voices.ts:91-97 | and loses no receipt |
| Corpus.FirstRowsExactly | packages/core/src/voices.ts:91-97 | the rows kept are those whose receipt no earlier row has, in order |
| Corpus.UniqueRows | packages/core/src/voices.ts:91-97 | the loop keeps the first row of every receipt |
| Corpus.ChannelKeyIsThePair | packages/core/src/corroborate.ts:187 | two rows share a channel bucket exactly when they share source and channel |
| Spread.Group | packages/core/src/synthesise.ts:108-117 | one row a receipt, queued by channel in order |
| Spread.Rank | packages/core/src/synthesise.ts:118-120 | each queue is sorted best first, equal scores as they came |
| Spread.TakeRound | packages/core/src/synthesise.ts:125-130 | one turn of the rotation, stopped at the cap |
| Spread.Rotate | packages/core/src/synthesise.ts:122-132 | the loop takes the rounds in order, cut at the cap |
| Spread.SpreadAcrossChannels | packages/core/src/synthesise.ts:107-133 | grouping, ranking and rotation together |
| Spread.SpreadTakesReceiptsOnce | packages/core/src/synthesise.ts:107-133 | as many records as asked for or as there are receipts, none twice, all first rows |
| Spread.SpreadTakesTheBest | packages/core/src/synthesise.ts:118-120 | a channel's picks are a prefix of its stable best-first order |
| Spread.SpreadIsFair | packages/core/src/synthesise.ts:122-132 | no channel is more than one pick ahead of another that still has records |
| SpreadOrder.PicksAreBestFirst | packages/core/src/synthesise.ts:107-133 | told of the picks alone: within a channel they never rise in score, equal scores keep the caller's order, and no record of the channel that is left out scores higher than one picked |
| SpreadOrder.PicksTakeTurns | packages/core/src/synthesise.ts:122-132 | a turn is over before the next begins, and in a turn channels come in the order in which they first appear |
| Spread.OrdinalsDistinct | packages/core/src/synthesise.ts:150-152 | no two records share an ordinal |
| Spread.BuildEvidenceBook | packages/core/src/synthesise.ts:135-167 | line i names record i and prints where it was said, its points and its text; the name leads to that record's receipt, there is no other name, the counts are right, and the block is the lines |
| EvidenceLines.LinePrints | packages/core/src/synthesise.ts:148-163 | told without the book's own functions: line i is the record's name, where it was said and its points in brackets, and its text |
| EvidenceLines.OrdinalExactly | packages/core/src/synthesise.ts:150-152 | the name is a letter for the kind, and how many of that kind came before |
| EvidenceLines.ShownExactly | packages/core/src/synthesise.ts:155-156 | a cleaned text that fits is shown whole, a longer one is cut to make room for three dots |
| EvidenceLines.WhereExactly | packages/core/src/synthesise.ts:162 | source and channel, leaving out what is empty |
| EvidenceLines.PointsExactly | packages/core/src/synthesise.ts:163 | points are printed with their sign, unless there are none |
| EvidenceLines.BookCounts | packages/core/src/synthesise.ts:155-166 | the book counts its lines, the texts it cut, and the characters it shows |
| Text.TrimExactly | packages/core/src/synthesise.ts:85-88 | trimming takes the white space off both ends, and nothing else |
| Text.CleanIsItsWords | packages/core/src/synthesise.ts:85-88 | a cleaned text is its words with one blank between them |
| EvidenceBlock.BlockReadsBackExactly | packages/core/src/synthesise.ts:85-163 | split at newlines the block is the lines again if and only if there is a record and no source or channel name shown holds a newline |
| EvidenceBlock.BlockLeadsToReceipts | packages/core/src/synthesise.ts:148-163 | and then the first word of line i leads to the receipt of record i, whatever the texts say |
| EvidenceBlock.ChannelCanPrintALine | packages/core/src/synthesise.ts:155-163 | two records, the channel of one a name of two lines whose second begins with the name the other will have: the block has three lines, and the second shows the first record's text and leads to the other's receipt |
| EvidenceBlock.ReviewsDoNotReadBack | packages/sources/src/amazon-reviews/index.ts:223-230 | two reviews, one of a product with a name of two lines, for which at the default limits that happens |
| Spread.CitedLineIsFound | packages/core/src/synthesise.ts:353-359 | a citation that trims to an ordinal becomes its line's receipt, at its place among the citations that are not empty |
| Spread.UnknownPassesThrough | packages/core/src/synthesise.ts:354-359 | any other citation that is not empty is passed on, trimmed |
| Spread.LinesAreDistinctReceipts | packages/core/src/synthesise.ts:148-153 | two lines of a book never lead to the same receipt |
| Csv.RenderCsv | packages/cli/src/formats.ts:217-229 | header and rows, joined by CRLF |
| Csv.FeedField | packages/cli/src/formats.ts:49-54 | a reader fed any printed field holds its text and would end it at a comma, a CR or the end |
| Csv.PrintedAsIsExactly | packages/cli/src/formats.ts:49-54 | a field is printed as it is exactly when it holds no quote, no comma and no line break |
| Csv.RoundTrip | packages/cli/src/formats.ts:217-229 | an RFC 4180 reader of the printed text returns the header and every cell's text, whatever the cells contain |
| Csv.Injective | packages/cli/src/formats.ts:217-229 | different row lists never print alike |
| FlatReading.ColumnsHoldWhatTheyName | packages/cli/src/formats.ts:211-229 | whoever reads the printed text finds in each record, under each name of the header, the field of that name |
| FlatRows.PushClaims | packages/cli/src/formats.ts:134-151 | a row for each claim, and after it one with its verdict and counts for each receipt shown |
| FlatRows.PushTerms | packages/cli/src/formats.ts:188-202 | a row for each side of each compared term, with that side's own denominator |
| FlatRows.FlatRows | packages/cli/src/formats.ts:124-205 | the blocks of claims, attested receipts, themes, trends and compared sides, in that order and each with the fields of its own entry |
| FlatRows.EvidenceIsWhatIsShown | packages/cli/src/formats.ts:142-151 | the evidence rows are exactly the receipts shown for the claims, claim by claim and in order |
| FlatRows.OneDenominator | packages/cli/src/formats.ts:85-91 | every row but a compared side's carries the run's denominator |
| FlatReading.ClaimsReadBack | packages/cli/src/formats.ts:134-151 | reading the rows gives back every claim with its verdict, its counts and its shown receipts, in order; each evidence row carries what its claim says |
| FlatReading.RowsTell | packages/cli/src/formats.ts:153-202 | of the rows of every other kind, in order, which value of the attested receipt, theme, trend or compared side stands in which column |
| FlatReading.RowsAreAbout | packages/cli/src/formats.ts:124-132 | every row but a compared side's is about the run's category, and its title or else its category |
| ClaimEvidence.PickLeaders | packages/core/src/evidence.ts:147-153 | the first loop picks the first record of each channel, best first, up to the size |
| ClaimEvidence.FillUp | packages/core/src/evidence.ts:154-158 | the second loop fills up with the others, best first |
| ClaimEvidence.SampleEvidence | packages/core/src/evidence.ts:134-161 | one row a receipt, best first, sampled by the two loops |
| ClaimEvidence.SampleTakesReceiptsOnce | packages/core/src/evidence.ts:134-161 | as many records as asked for or as there are receipts, and no receipt twice |
| ClaimEvidence.SampleShowsChannels | packages/core/src/evidence.ts:126-133 | the sample shows as many channels as it has places for |
| ClaimEvidence.SampleShowsTheBest | packages/core/src/evidence.ts:126-153 | every channel shown is shown by its best record |
| ClaimEvidence.SampleLeadsWithChannels | packages/core/src/evidence.ts:134-161 | the sample begins with one record of each channel it shows, and goes on with the others; neither part ever rises in score |
| ClaimEvidence.LeftOutIsNoBetter | packages/core/src/evidence.ts:154-158 | a record shown is the best of its channel or no worse than any record left out |
| ClaimEvidence.RowsRegroupExactly | packages/cli/src/formats.ts:18-25 | a claim's rows carry every receipt its count was taken over if and only if the sample has room for all; they are as many as the records that count if and only if the sample is of that size, or nothing is left out and no text is repeated |
| ClaimEvidence.FourReceiptsDoNotRegroup | packages/core/src/evidence.ts:42 | four receipts of which, at the default size of three, one has no row |
| Decimal.RoundTrip | packages/cli/src/formats.ts:51 | a printed natural number reads back |
| Decimal.NoLeadingZero | packages/cli/src/formats.ts:51 | and has no needless zero at its front |
| Corroborate.HearSupport | packages/core/src/corroborate.ts:165-193 | the first loop's sets, ids and tallies are those of the first rows and of the rows that count |
| Corroborate.HearOpposition | packages/core/src/corroborate.ts:222-240 | the second loop's, with receipts and texts of the support left out |
| Corroborate.Judge | packages/core/src/corroborate.ts:138-279 | the published counts, list of sources, basis and verdict are those of the rows that count on each side |
| CorroborateVerdicts.VerdictExactly | packages/core/src/corroborate.ts:204-261 | told of the rows: the claim stands exactly when the supporting rows that count come from enough channels and hold the threshold of promoting rows, or rows of two promoting tiers, or two rows of the first tier; disagreement when as many opposing rows count, from as many channels; finding, contested, refuted or a weak signal accordingly |
| CorroborateVerdicts.BasisExactly | packages/core/src/corroborate.ts:204-213 | and the basis named is the first of these that holds |
| CorroborateVerdicts.TierCountExactly | packages/core/src/corroborate.ts:178-180 | a published tier count is the number of rows that count of that tier |
| CorroborateVerdicts.CountedExactly | packages/core/src/corroborate.ts:161-176 | the rows that count are, in order, those whose text is empty or has not been counted before |
| CorroborateVerdicts.OutsideExactly | packages/core/src/corroborate.ts:222-230 | the opposing rows heard are those whose receipt does not support, each receipt once |
| CorroborateVerdicts.EntryExactly | packages/core/src/corroborate.ts:189-196 | a source's entry says how many of the rows that count are its own, and from how many of its channels |
| Corroborate.SourcesListed | packages/core/src/corroborate.ts:195-197 | the list has each source that counted once, most records first and then by name |
| Corroborate.RecordsAreVoices | packages/core/src/corroborate.ts:165-177 | `records` is the number of distinct non-empty texts plus textless receipts among distinct receipts |
| Corroborate.CountsAddUp | packages/core/src/corroborate.ts:178-197 | tiers sum to `records`, and over the published list of sources records to `records` and channels to `channels` |
| Corroborate.SidesAreDisjoint | packages/core/src/corroborate.ts:227-240 | no receipt and no text counts on both sides |
| Corroborate.SupportOnlyGrows | packages/core/src/corroborate.ts:165-213 | more supporting rows never take support away |
| Corroborate.OppositionOnlyGrows | packages/core/src/corroborate.ts:222-258 | more refuting rows never take disagreement away |
| Corroborate.MoreSupportLessOpposition | packages/core/src/corroborate.ts:227-258 | more supporting rows never add to the disagreement, when a receipt has one text |
| Corroborate.FindingStays | packages/core/src/corroborate.ts:165-261 | so a finding stays a finding, when a receipt has one text |
| CorroborateExact.FindingStaysExactly | packages/core/src/corroborate.ts:227-261 | at any threshold and floor: a finding survives every further supporting row if and only if too few opposing rows count, or the most channels that opposing rows with a text each of their own can come from are fewer than the floor |
| CorroborateExact.StaysUnlessReached | packages/core/src/corroborate.ts:227-261 | the same with the choice spelled out: no set of opposing receipts to silence leaves rows that count from enough channels |
| CorroborateExact.FindingStaysAtTwoChannels | packages/core/src/corroborate.ts:227-261 | at the default floor of two channels: if and only if too few opposing rows count, or those with a text of their own against the support, repeats included, come from fewer than two channels |
| CorroborateWitness.SupportCanUnmakeAFinding | packages/core/src/corroborate.ts:227-261 | rows that turn a finding into contested by supporting it, at the default thresholds |
| Quotas.Quotas.Record | packages/server/src/quotas.ts:225-255 | a key's record with its windows rolled, and no other record touched |
| Quotas.Quotas.Check | packages/server/src/quotas.ts:261-294 | admits below the meter's own limit and counts only then; quotes the wait for the window that refused |
| Quotas.Quotas.SeedReports | packages/server/src/quotas.ts:362-371 | each positive count raises the current window of its key |
| Quotas.WindowsApart | packages/server/src/quotas.ts:241-248 | however a history goes on, each of a key's windows is the one it had or starts at least its own length after it |
| Quotas.AtMostTwiceTheLimit | packages/server/src/quotas.ts:225-294 | over any history with a clock that never goes back, no interval of one report window admits more than twice `reportsPerWindow` reports of a key, seeding included, and none of one lookup window more than twice `lookupsPerWindow` lookups |
| Quotas.AllowedExactly | packages/server/src/quotas.ts:275-294 | over any history a request is let through exactly when fewer than its meter's limit have been since the window started, reports counted at boot included |
| Quotas.RecordsSum | packages/server/src/quotas.ts:225-294 | a record holds when its key was first and last heard of, and how many requests of each meter were ever let through |
| Quotas.TwiceIsReached | packages/server/src/quotas.ts:241-248 | and for each meter, its limit positive and its window of at least two milliseconds, some history admits exactly that many |
| Quotas.RefusalsCountNothing | packages/server/src/quotas.ts:278-285 | over any history, making every refused request a mere look leaves the same records and lets the same requests through |
| Quotas.KeysAreSeparate | packages/server/src/quotas.ts:225-255 | over any history, a key's record and what is let through for it are those of its own calls alone |
| Quotas.QuotedWaitIsExact | packages/server/src/quotas.ts:265-285 | a key silent for the quoted wait, while others go on, is admitted if and only if the limit of that meter is positive, and a whole second sooner it is refused again |

## Left out

Where a contract says less than the code does, or assumes something of it:

- RetrievePool.RetrievalPool.Wrote: assumes that the corpus reports no more records written than the batch it was given.
- RetrievePool.RetrievalPool.WriteFails: what a failed write has stored all the same is counted neither by the code nor here.
- RetrievePool.RetrievalPool.Record: a batch is its length, the relevance gate an arbitrary verdict on each record, and a query any finite list of records that may end in a throw. Log lines and progress callbacks are not modelled.
- RetrievePool.RetrievalPool.Conclude: sources are named by registry position, so their ids are taken to be distinct; reasons are a list of causes, not their wording.
- RetrieveReport.HardCap: the cap and limits are natural numbers. The model lets other work in between also where the code goes on without an await, so some of its schedules are ones the code cannot run; theorems over all schedules hold of those too, and `RetrieveSchedules.Feasible` excludes them where a schedule is exhibited.
- JobQueue.JobQueue.RunEnds: stage and degradation callbacks of a run are taken to stop when the run has ended.
- JobQueue.JobQueue.ClaimsReady: of claims only the number of findings is modelled; snapshots and estimates are values the queue never reads back.
- JobsTheorems.FinishedOnceDeliveredOnce: assumes that taking a snapshot and printing it as JSON does not throw inside `finishReport`. A throw there while a report completes (line 540) would be caught at line 541 and finish the report again, as failed; it is not modelled.
- JobsTheorems.OnlyTheLastCancelAborts: `shutdown` aborts every registered run and is not a step of the model.
- JobsAnswers.SubmitAnswersExactly: an empty idempotency key is none; the status, category and estimate that an accepted answer also carries are left out.
- JobsRepeats.RepeatedSubmit: a request's subject key and fingerprint are given values; how they are made from a request is not modelled.
- EventFrames.RoundTrip: characters instead of UTF-8, LF line ends as the server writes them; of JSON and decimal numbers it is assumed that one-line text decodes back.
- EventStream.ExactlyOnce: the header is any integer; fractions are not modelled, and a dropped connection is taken to be noticed before the client's next one opens.
- EventStream.EndsOnlyWhenComplete: that the terminal event is the last is a hypothesis here; `JobsLogs.TerminalIsLastExactly` says when the queue meets it.
- ClaimEvidence.SampleEvidence: the shortening of each text to its excerpt is not modelled.
- Voices.CountVoices: the lane hash is any 32-bit function and normalising a text any function, so the FNV-1a arithmetic is not modelled; the similarity 0.8 is taken as 8 lanes in 10.
- EditDistance.SuggestedExactly: lower-casing, trimming and splitting at white space are arbitrary functions.
- Spread.BuildEvidenceBook: scores are integers, and lengths count characters instead of UTF-16 units.
- Spread.CitedLineIsFound: trimming is an arbitrary function, and citations that are not texts are taken to be gone already.
- Csv.RoundTrip: numbers are natural and below the size where JavaScript switches to exponents.
- FlatRows.FlatRows: of a run result only the fields the rows carry are modelled.
- Corroborate.Judge: the key of a text, the tier of a source and where a name comes in the library's collation are arbitrary functions.
- CorroborateExact.FindingStaysExactly: of the key of a text it is assumed that the empty text has an empty key, as trimming gives it.
- Quotas.AtMostTwiceTheLimit: times, counts and limits are integers; spending limits (`canSpend`, `charge`, `seedSpend`) are a separate pair of windows in dollars and are not modelled.

Not modelled at all, and why:

- storage drivers, webhook delivery, source adapters, network fetching, model prompts and transports: the modelled code only awaits them, and what they answer is a parameter of its actions
- SHA-256, JSON encoding, authentication, the other HTTP routes, MCP dispatch and the Python client: standard algorithms, or routing to the code modelled here
- Markdown, NDJSON and text rendering, help texts and argument parsing: printed for people, with nothing in the repository that reads them back
- the citation gate, trend noise, comparisons, ad duration, format verdicts, sufficiency and share of voice: each is a filter or a formula over counts, without state
