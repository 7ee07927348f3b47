# Verified core of the generation platform

This project models the durable parts of the platform in Dafny and proves what they promise: the media generation
workflow with its finalizer, compensation, batch barrier and outbox; the points ledger; the approval store; the session
event log and its relay; the transcript window; the planner's identifiers; the generation target selector; and the
one-closer repair of malformed model output.

## How the model is built

* **Stores.** Each in-memory store appears twice. A *value* (`WorkflowStore`, `BatchTransactions`, `Billing`, `Approvals`)
  gives every public operation as a function from store to store. A *class* (`WorkflowMemory.MemoryStore`,
  `BillingStore.MemoryStore`, `ApprovalMemory.MemoryStore`, `EventLog.MemoryStore`) keeps the maps in fields, updates them
  in place with the source's loops and rollbacks, and is proved to compute the same thing or to leave everything unchanged.
* **Mutations.** Every closure that workers, the finalizer and the compensation service pass to `MutateJob` is one
  constructor of `JobMutations.Mutation`; `Apply` is what the closure does.
* **Threads.** `Workers` turns `Process`, `Finalize` and the compensation service into programs that advance one atomic
  step at a time: a read, an answer from outside, a compare-and-swap, or a ledger call. A program point carries the job
  snapshot the code holds in its local variable. `World.Step` interleaves any number of workers, compensators and outbox
  relays with cancels, barrier calls, lease renewals and new workflows; `Leave` is a crash at any point. `World.Run` is an
  arbitrary finite interleaving, and the theorems quantify over all of them.
* **Outside answers.** Providers, storyboard checks and commits, cost calculation and result recovery are the `Answer`
  of a step, chosen freely. The billing gateway may fail before the ledger acts or after it has acted.
* **Lease-exclusive runs** (`World.ExclusiveRun`) are those in which no worker starts on a job while another worker of
  the same job is still there. Money, versioning, endings, the barrier and wake-ups are proved
  without this restriction.

Points, versions, times and counters are unbounded integers. Composite string keys (`job:<id>:lifecycle:<n>` and the like)
are datatypes, so distinct parts give distinct keys. Identifiers are taken as already trimmed. Generated event ids are a
parameter (`newId`). Jobs enter through `CreateWorkflow` with zero counters and an empty billing record.

## What is proved

* No lost wake-up, in every run without a *late* write, that is, without a worker writing to a job that it holds as finished
  with its compensation asked for: `WakeUps.NoLostWakeUpUnlessLate`. Overlapping workers are allowed; lease-exclusive runs
  have no late writes (`WakeUps.NoLostWakeUp`). The source leaves out the check after a failed commit, and a late write can
  lose a wake-up: `Overlap.OverlapLosesWakeUp`, a run step by step.
* Every recorded charge is delivered or compensated, in lease-exclusive runs without a *lossy* answer:
  `Coverage.EveryChargeIsCovered`. The source answers some failures with `failProvider` or `failPermanent` and marks
  compensation as not required although the job is charged. Where such a run goes on with one answer and its
  compare-and-swap, a charge is left uncovered exactly if that answer is lossy on a current read
  (`Coverage.UncoveredIffLossy`), and this does happen: a repeated charge meets a ledger that is out of reach on the last
  attempt (`Scenarios.LossyRunExists`). Answers are taken as the gateway interfaces allow them, so lossy ones include binding
  checks that fail in another stage than binding, which the storyboard adapter never reports.
* At-most-once money and conservation over the whole system: `MoneyRuns`.
* Versioned records, legal and announced status changes, single endings, barrier soundness; progress of workers and the
  only reasons for which a call is given up.
* The outbox dispatcher's loop is one of the interleavings: `OutboxDispatcher.DispatchIsARun`.
* The batch cost summary: without any assumption it reports the charges and refunds it does not skip
  (`BatchCost.CostAccountsForEveryJob`); the refunded total is complete exactly when no compensated job lacks a refund id
  or shares it with an earlier job (`BatchCost.RefundedIsCompleteIff`), which manual finalization can violate
  (`BatchCost.SharedRefundIdLosesPoints`); in every run the gross total is complete, and the totals are what the
  ledger booked (`CostRuns.BatchCostAddsUp`, `CostRuns.CostIsInTheLedger`).

## Model

| member | source | states |
|---|---|---|
| LedgerConservation.MutateConserves | internal/aigc/billing/memory_store.go:68-116 | A credit, charge or refund with a fresh transaction id keeps every balance equal to its opening plus its movements and non-negative, the version equal to the number of movements plus one, refunds within their charge, and the key index exact |
| LedgerConservation.RunConserves | internal/aigc/billing/memory_store.go:30-116 | The same after every run of openings and mutations with fresh ids |
| LedgerConservation.ReplayChangesNothing | internal/aigc/billing/models.go:107-132 | A request that once succeeded, repeated in any later ledger, answers the recorded transaction and changes nothing |
| BillingStore.EqualBreakdown | internal/aigc/billing/models.go:134-145 | The comparison loop decides equality of breakdowns |
| BillingStore.MemoryStore.EnsureAccount | internal/aigc/billing/memory_store.go:30-44 | Opens an account once; errors and repetitions change nothing |
| BillingStore.MemoryStore.RefundedAgainst | internal/aigc/billing/memory_store.go:98-103 | The loop over all transactions yields the sum of the refunds booked against a charge |
| BillingStore.MemoryStore.Mutate | internal/aigc/billing/memory_store.go:68-116 | The in-place updates are exactly the ledger mutation on values, result included |
| WorkflowMemory.MemoryStore.AppendEvent | internal/aigc/generation/workflow_store.go:632-655 | One row per producer key; refuses exactly when the key is new and the generated id is taken |
| WorkflowMemory.MemoryStore.AppendEvents | internal/aigc/generation/workflow_store.go:657-679 | All events or, after a refused one, the outbox maps as they were |
| WorkflowMemory.MemoryStore.MutateJob | internal/aigc/generation/workflow_store.go:431-473 | Version check, mutation, transition check, stamp, outbox and job write are the value-level compare-and-swap; every error leaves all maps unchanged |
| WorkflowMemory.MemoryStore.RenewJobLease | internal/aigc/generation/workflow_store.go:355-370 | Renews expiry and update time of an owned lease and nothing else |
| WorkflowMemory.MemoryStore.CreateWorkflow | internal/aigc/generation/workflow_store.go:141-313 | Operation, batch, jobs and dispatch rows together or not at all; a known key is a replay |
| WorkflowMemory.BuildJobs | internal/aigc/generation/workflow_store.go:201-284 | The job loop finds the first invalid or duplicate request, else builds all jobs and counts the required ones |
| WorkflowMemory.MemoryStore.Commit | internal/aigc/generation/workflow_store.go:503-563 | Lifecycle events, transition checks, version stamps, outbox and write-back of a batch transaction, all or nothing |
| WorkflowMemory.MemoryStore.MarkOutboxPublished | internal/aigc/generation/workflow_store.go:590-607 | Publishes the row of this id once |
| WorkflowMemory.MemoryStore.MarkOutboxFailed | internal/aigc/generation/workflow_store.go:609-630 | Counts the attempt, then kills the row at the limit or delays it by the backoff |
| WorkflowMemory.RecountBatch | internal/aigc/generation/barrier.go:168-189 | The counting loop yields the tally of the job list |
| WorkflowMemory.EvaluateCompletionPolicy | internal/aigc/generation/barrier.go:191-218 | The policy switch and its loop yield the policy's status |
| WorkflowMemory.BarrierTransaction | internal/aigc/generation/barrier.go:79-154 | The barrier's closure with its passes over the jobs is the value-level barrier step |
| WorkflowMemory.CancelTransaction | internal/aigc/generation/command.go:63-106 | The cancel closure flags every open job, cancels queued ones and collects the notices |
| WorkflowMemory.MemoryStore.TryFinalize | internal/aigc/generation/barrier.go:74-166 | The barrier call on the maps is the barrier on values |
| WorkflowMemory.MemoryStore.CancelBatch | internal/aigc/generation/command.go:59-107 | The cancel call on the maps is the cancel on values |
| StoreInvariants.MutationFits | internal/aigc/generation/finalization.go:205-832 | Every mutation keeps identity, version, cancel flag and recorded usage and price, emits only events of its own job, and requests the barrier when it ends the job |
| StoreInvariants.DoKeeps | internal/aigc/generation/workflow_store.go:431-564 | Every store operation, with any mutation, keeps references, rows and batch states consistent and lets records only grow |
| StoreInvariants.RunKeeps | internal/aigc/generation/workflow_store.go:141-630 | The same for every sequence of operations from the empty store |
| StoreInvariants.BarrierKeeps | internal/aigc/generation/barrier.go:74-166 | The transition table never refuses the barrier, and its result is sound |
| Snapshots.SwapFound | internal/aigc/generation/workflow_store.go:438-446 | A compare-and-swap that succeeds found exactly the snapshot its thread held, up to lease expiry and update time |
| Snapshots.RunCoherent | internal/aigc/generation/lifecycle_worker.go:117-180 | In every run every thread's snapshot is an earlier state of the stored job |
| StoredChanges.StoredChange | internal/aigc/generation/workflow_store.go:355-564 | Every change of a stored job is a lease renewal, a batch cancel, or the swap of the one thread that held that very state |
| RunTheorems.VersionedJobs | internal/aigc/generation/workflow_store.go:431-473 | Between any two moments of any run versions only grow, equal versions mean equal content up to lease expiry and update time, terminal statuses stay, usage and price never change once recorded |
| RunTheorems.EveryStepIsLegal | internal/aigc/generation/workflow_store.go:732-752 | Every step moves a status along the transition table, and every change adds a row about the job that was not there before |
| RunTheorems.TerminalIffEnded | internal/aigc/generation/barrier.go:131-154 | At every moment a batch is terminal iff its one terminal row exists, with the stored status, version and cost, and the operation carries the same snapshot |
| RunTheorems.EndedStays | internal/aigc/generation/workflow_store.go:528-563 | Once a batch has ended neither it nor its operation ever changes |
| BarrierSoundness.CountIsCardinality | internal/aigc/generation/barrier.go:168-189 | A counter is the number of positions with that status |
| BarrierSoundness.EndStatusIsRight | internal/aigc/generation/barrier.go:116-130 | The end status is the one the policy or the cancel rule dictates, said without counters |
| BarrierSoundness.BarrierEndsRightly | internal/aigc/generation/barrier.go:79-131 | A barrier call ends an open batch exactly when all jobs are terminal and all recorded charges settled; the counters then partition the job list |
| BarrierSoundness.BatchesEndRightly | internal/aigc/generation/barrier.go:79-154 | Whichever step of whichever run ends a batch, it ends it that way |
| BarrierSoundness.BarrierNeverRefused | internal/aigc/generation/state_machine.go:33-52 | In no reachable state does the transition table refuse the barrier |
| MoneyRules.ChargeKeepsLedger | internal/aigc/generationruntime/adapters.go:439-450 | A charge by a worker that holds the job's key and frozen price books at most one charge of that job and answers that charge |
| MoneyRules.RefundKeepsLedger | internal/aigc/generationruntime/adapters.go:452-463 | A refund books at most one refund of that job, of exactly its charge |
| MoneyRules.RepeatedChargeIsAnswered | internal/aigc/billing/memory_store.go:75-81 | Once booked, a charge is answered to every repetition, whatever the balance |
| MoneyRuns.StepKeepsMoney | internal/aigc/generation/finalization.go:298-326 | Every step keeps ledger, jobs and program points in agreement |
| MoneyRuns.AtMostOneCharge | internal/aigc/generation/finalization.go:298-326 | In every run the ledger holds at most one charge per job, of exactly the frozen price |
| MoneyRuns.AtMostOneRefund | internal/aigc/generation/finalization.go:752-756 | In every run every refund gives back all of one charge, and no charge is refunded twice |
| MoneyRuns.RecordedChargeIsBooked | internal/aigc/generation/finalization.go:432-461 | What a job records as charged is what the ledger booked for it, and its compensation lies between zero and that |
| MoneyRuns.RunConserves | internal/aigc/billing/memory_store.go:68-116 | The ledger of every run of the whole system conserves points |
| MoneyRuns.PollsBounded | internal/aigc/generation/lifecycle_worker.go:208-211 | In every run, with any number of workers, polls stay within their bound |
| ExclusiveRules.SwapSpends | internal/aigc/generation/lifecycle_worker.go:182-304 | No mutation of a worker gives budget back, and one that ends the call without ending the job takes some |
| ExclusiveRuns.RunOrderly | internal/aigc/generation/lifecycle_worker.go:153-179 | Under the lease a charged open job stays in finalization, retries stay in budget, and finalization points find the job finalizing |
| ExclusiveRuns.WorkerProgress | internal/aigc/generation/lifecycle_worker.go:117-304 | Each completed call of an uncancelled job ends the job or strictly decreases polls left plus retries left plus one for a missing task, which never falls below zero |
| Aborts.NoConflict | internal/aigc/generation/workflow_store.go:442-455 | In lease-exclusive runs no compare-and-swap of an uncancelled job's worker is refused for a version, a transition or another transaction; only the commit it carries can fail |
| Aborts.AbortsOnlyOnAnswer | internal/aigc/generation/lifecycle_worker.go:117-304 | In lease-exclusive runs a call for an uncancelled job is given up only on a failed recovery, a lost lease or an answer its program point does not wait for, never on a store write or a billing call |
| Coverage.EveryChargeIsCovered | internal/aigc/generation/finalization.go:253-401 | In lease-exclusive runs without lossy answers every finished job with a recorded charge succeeded, or failed or was cancelled with compensation asked for |
| Coverage.UncoveredIffLossy | internal/aigc/generation/finalization.go:609-693 | After any lease-exclusive run without lossy answers, one more answer and its compare-and-swap leave a recorded charge uncovered exactly if the answer is lossy and nobody touched the job since the worker read it |
| Scenarios.LossyRunExists | internal/aigc/generation/finalization.go:305-316 | Such a run and such an answer exist: a worker crashes after its charge is recorded, the next one asks the ledger for the same charge on its last attempt, the ledger is out of reach, and the job ends failed and uncompensated |
| WakeUps.NoLostWakeUpUnlessLate | internal/aigc/generation/finalization.go:361-396 | In every run, overlapping workers included, in which no worker writes to a job that it holds as finished with its compensation asked for, a batch that nothing holds back is terminal or has a pending, untried barrier request |
| WakeUps.NoLostWakeUp | internal/aigc/generation/outbox_dispatcher.go:48-74 | In particular in every lease-exclusive run, where no write is late |
| WakeUps.StepLosesNone | internal/aigc/generationruntime/outbox.go:58-68 | Barrier call and acknowledgement are separate steps, and no interleaving loses the request |
| WakeUps.RowStaysPending | internal/aigc/generation/workflow_store.go:590-630 | A pending barrier request stays pending until acknowledged; it is never dead-lettered |
| Overlap.OverlapLosesWakeUp | internal/aigc/generation/finalization.go:377-396 | With a late write a wake-up can be lost: a run of two overlapping workers of one job reopens a settled compensation and ends with an open batch that nothing holds back and no pending barrier request; the run is shown to contain a late write |
| OutboxDispatcher.DispatchPending | internal/aigc/generation/outbox_dispatcher.go:36-77 | The loop hands over exactly the due rows of its listing up to the limit, acknowledges the delivered ones, rejects the others, counts the deliveries and keeps the store consistent |
| OutboxDispatcher.DispatchOne | internal/aigc/generation/outbox_dispatcher.go:56-73 | A barrier request is delivered only if the barrier ran and is never given up; other rows follow their consumer's answer and die after ten attempts |
| OutboxDispatcher.PassIsARun | internal/aigc/generation/outbox_dispatcher.go:48-75 | Handing over distinct pending rows one by one is a run of one relay |
| OutboxDispatcher.DispatchIsARun | internal/aigc/generation/outbox_dispatcher.go:36-77 | If the store is that of a run when the dispatcher lists distinct pending rows, its store after the pass is that of the run continued by one relay, so what holds of all runs holds of the dispatcher |
| BatchCost.AggregateCost | internal/aigc/generation/barrier.go:220-255 | The accumulation with its seen-sets is the cost of the job list |
| BatchCost.CostAccountsForEveryJob | internal/aigc/generation/barrier.go:220-255 | For any job list, reported plus skipped points are what the jobs carry |
| BatchCost.RefundedIsCompleteIff | internal/aigc/generation/barrier.go:235-240 | The refunded total is the sum over the jobs exactly when every compensated job has a refund id not used before it in the list |
| BatchCost.SharedRefundIdLosesPoints | internal/aigc/generation/finalization.go:867-883 | Any two different jobs finalized manually with one refund id: both amounts are refunded, only the first is reported |
| BatchCost.CostIsTheSum | internal/aigc/generation/barrier.go:220-255 | With distinct transactions and bounded refunds gross, refunded and net are the sums and net lies between zero and gross |
| BatchCost.BreakdownSumsToNet | internal/aigc/generation/barrier.go:226-250 | If each job's breakdown adds up to its charge, the merged breakdown with its refund entry adds up to net |
| CostRuns.BatchCostAddsUp | internal/aigc/generation/barrier.go:220-255 | In every run gross is the sum of the jobs' charges and net lies between zero and gross |
| CostRuns.CostIsInTheLedger | internal/aigc/generation/barrier.go:220-255 | In every run gross is what the ledger booked as the jobs' recorded charges; in runs without manual finalization refunded is complete and is what the ledger booked as their refunds |
| ApprovalMemory.MemoryStore.Create | internal/aigc/approval/memory_store.go:44-77 | Creation on the maps, with its scan for a pending review, is creation on values |
| ApprovalMemory.MemoryStore.HasPrimaryReview | internal/aigc/approval/memory_store.go:67-73 | The scan finds a pending primary review of the session exactly if there is one |
| ApprovalMemory.MemoryStore.Decide | internal/aigc/approval/memory_store.go:178-214 | A decision on the maps is the decision on values, result included |
| ApprovalMemory.MemoryStore.BindInterruptMapping | internal/aigc/approval/memory_store.go:216-251 | Freezes the mapping once, in the expected epoch |
| ApprovalMemory.MemoryStore.SwitchToDurableFallback | internal/aigc/approval/memory_store.go:253-324 | The fenced switch on the maps is the switch on values |
| ApprovalMemory.MemoryStore.MarkOutboxPublished | internal/aigc/approval/memory_store.go:363-392 | Only a pending row becomes published; a repeated acknowledgement changes nothing |
| ApprovalMemory.MemoryStore.MarkOutboxFailed | internal/aigc/approval/memory_store.go:394-418 | Counts the attempt, then kills or delays the pending row |
| ApprovalRuns.RunKeeps | internal/aigc/approval/store.go:91-166 | Every run keeps approvals, decisions, continuations and rows in lockstep |
| ApprovalRuns.DecidedExactlyOnce | internal/aigc/approval/store.go:91-166 | In every run the decision version is 0 iff pending and else 1, decision and continuation exist exactly for decided approvals, epochs agree, and runner-resume needs interrupt mode and a frozen mapping |
| ApprovalRuns.OnePendingReview | internal/aigc/approval/memory_store.go:67-73 | In every run a session has at most one pending primary review |
| ApprovalRuns.DecisionIsReplayed | internal/aigc/approval/memory_store.go:184-190 | After any later run a repeated decision request answers the recorded decision, changes nothing and finds the row of the current epoch and executor |
| ApprovalRuns.SwitchIsReplayed | internal/aigc/approval/memory_store.go:278-283 | After any later run a repeated switch changes nothing; it is answered with the row of its own epoch exactly as long as no decision and no further switch came in between, and is fenced afterwards |
| EventLog.MemoryStore.AppendSessionEventOnce | internal/aigc/events/memory_store.go:38-68 | Appends the next number of the session, or answers the row of the same identity; errors and repetitions change nothing; the three indexes agree |
| EventLog.SearchAfter | internal/aigc/events/memory_store.go:95-95 | Binary search finds the first row past the cursor |
| EventLog.MemoryStore.Tail | internal/aigc/events/memory_store.go:83-102 | The read equals the rows past the cursor picked one by one, cut at the limit |
| EventLog.MemoryStore.CurrentSeq | internal/aigc/events/memory_store.go:104-115 | The counter is the length of the session's log |
| TailRelay.Drain | internal/aigc/events/relay.go:64-86 | Draining by batches delivers exactly the log after the cursor |
| TailRelay.RelayDeliversTheLog | internal/aigc/events/relay.go:64-86 | Under any interleaved appends, fetches, failures and reconnects the consumer has acknowledged exactly the log between its start and its cursor |
| TailRelay.EmptyFetchMeansCaughtUp | internal/aigc/events/relay.go:65-76 | When a fetch comes back empty everything after the start has been delivered |
| Transcript.BuildGroups | internal/aigc/session/transcript.go:40-68 | The grouping loop yields one group per run in order of first appearance, with earliest rows and current flag |
| Transcript.CutToLimit | internal/aigc/session/transcript.go:105-117 | The backward loop keeps the longest suffix of runs within the limit, or just the last run |
| Transcript.ApplyMessageWindow | internal/aigc/session/transcript.go:28-124 | The result is the transcript of the rows: sorted, grouped, cut off, ordered and limited by run |
| Transcript.WindowIgnoresInputOrder | internal/aigc/session/transcript.go:32-38 | For unique ids the transcript does not depend on the order of the rows |
| Transcript.RunsAreWhole | internal/aigc/session/transcript.go:105-123 | A run appears whole or not at all |
| Transcript.HiddenExactlyByCutoff | internal/aigc/session/transcript.go:71-117 | In every window a row is missing exactly when the earliest user row of its run is past the cutoff or the limit removed its run, and the limit only removes runs that the cutoff shows |
| Transcript.CurrentRunIsLast | internal/aigc/session/transcript.go:88-117 | If the cutoff shows the run of the current message, no limit removes it and it ends the result |
| Planner.UniqueId | internal/aigc/capabilityruntime/runtime.go:1767-1783 | Ends, and returns the base name if free, else the base with the least free suffix |
| Planner.UniqueKey | internal/aigc/capabilityruntime/runtime.go:1785-1805 | Ends, and by its counters gives the same name as the plain search from suffix two would, takes exactly that name and keeps the counters sound |
| Planner.NormalizeModules | internal/aigc/capabilityruntime/runtime.go:1713-1765 | In place: every module, element, slot and prompt carries the name that its own wish and the names given before it determine, ids across the whole plan; defaults, orders and counts filled in, all else kept |
| Planner.PlanIsWellNamed | internal/aigc/capabilityruntime/runtime.go:1713-1765 | All module and element ids of a normalized plan are distinct, keys, slot keys and purposes are distinct in their scope, orders are 1..n and planned counts equal element counts |
| Planner.NormalizingAgainChangesNothing | internal/aigc/capabilityruntime/runtime.go:1713-1805 | Normalizing a normalized plan gives the same plan |
| CloserRepair.Repair | internal/aigc/agent/a2ui_output.go:140-194 | Accepts exactly the texts with a removable closer and returns the text without it |
| CloserRepair.RemovableIsUnique | internal/aigc/agent/a2ui_output.go:172-182 | At most one closer of a text can be removed |
| CloserRepair.RepairedIsFinal | internal/aigc/agent/a2ui_output.go:190-193 | A repaired text is balanced and can never be repaired again |
| CloserRepair.BalancedIsRefused | internal/aigc/agent/a2ui_output.go:190-193 | Balanced text is refused |
| Selection.SelectTargets | internal/aigc/capabilityruntime/runtime.go:1508-1558 | Fails exactly when a considered slot cannot be resolved, else returns the chosen targets |
| Selection.AutoNextIsLeastStage | internal/aigc/capabilityruntime/runtime.go:1540-1556 | The automatic phase returns exactly the eligible slots of the least stage, by module and element, ties in storyboard order |
| Selection.Classify | internal/aigc/capabilityruntime/runtime.go:1564-1646 | The flag loops yield the reason for an empty selection, or the resolution error |
| Selection.NoTargetsIffUnexplained | internal/aigc/capabilityruntime/runtime.go:1576-1646 | When the automatic phase selects nothing, the classifier answers that the phase has no targets exactly if some slot is ready, none is held or blocked and no job counts as in flight; the ready slot is then taken by a job that does not count |
| Selection.EmptySelectionIsExplained | internal/aigc/capabilityruntime/runtime.go:880-896 | So it never answers that if the jobs in flight are this storyboard's own and not assembly |
| Selection.ForeignJobConfuses | internal/aigc/capabilityruntime/runtime.go:1580-1582 | A job of another storyboard on the same slot makes it answer that |
| Selection.AssemblyJobConfuses | internal/aigc/capabilityruntime/runtime.go:1577-1579 | So does an assembly job on the same slot, as an argument of the functions; the program gives assembly jobs targets of their own |
| Selection.CompleteMeansNothingMissing | internal/aigc/capabilityruntime/runtime.go:1815-1827 | Reported completion means no required slot is missing |

## Left out

- PostgreSQL, Redis and migrations: the memory stores carry the same logic.
- JSON encoding, fingerprints, random ids, wall clock and the heartbeat goroutine: opaque equality, parameters, integers, and a lease renewal that may happen at any time.
- Storyboard internals: input resolution, binding checks and commits are free answers.
- Payload texts, error messages, session and run ids of jobs and events: copied by the source, never branched on by the modelled code.
- The order in which the outbox is listed: the dispatcher works on any listing, and relay threads take, publish and settle rows in any order and number.
- Consumers of rows other than barrier requests: accepted or refused freely; compensation runs start freely, not only when their row is relayed.
- The fourth conflict in a row while freezing a price or recording a charge: the call is given up.
- Validation of delivery policies and binding tokens at creation.
- Candidate approval batches, the approval service and the continuation store: continuation work is a step that may set status and lease.
- Identity of event ids and producer keys in the approval outbox: both are the same string in the source, so one map models both.
- The top-level object extractor and the envelope parser around the closer repair.
- Upper-case variants of media kinds and phases: kinds are a datatype.
- ExclusiveRuns.WorkerProgress: speaks of completed calls; a call given up on an answer may leave the budget as it was, and `Aborts.AbortsOnlyOnAnswer` says which answers those are.
