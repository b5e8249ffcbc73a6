# Verified model of the scheduler's durable state machines

The scheduler keeps its work in SQL tables and lets several parties change them:
dispatcher workers that can stop between any two transactions, an operator on the
command line, timers, and start-up recovery. This project models those tables and
transactions in Dafny and proves what every history of them keeps.

`dafny verify dfyconfig.toml` checks everything.

## What is modelled

| area | modules |
|---|---|
| multipart delivery outbox | `Utf16`, `BodySplitter`, `Outbox`, `OutboxInvariants`, `OutboxEnqueue`, `OutboxTheorems`, `OutboxStore` |
| dispatch queue, approval gate, runs and workers | `ApprovalBinding`, `Gate`, `GateInvariants`, `GateSteps`, `GateCounts`, `GateTheorems`, `GateRecovery`, `GateExact`, `GateResults`, `GateEscalation`, `GateCascade`, `GateStore` |
| the race to end one run | `Completion`, `CompletionStore` |
| credential rows and files | `Credentials`, `CredentialTheorems`, `CredentialStore` |
| bounded worker pool | `WorkerPool`, `WorkerPoolTheorems`, `WorkerPoolStore` |
| canonical JSON and stored artifacts | `CanonicalJson`, `CanonicalTheorems`, `ArtifactStore` |
| chunked stream reader | `SseReader` |

Each area has a specification in functions over a value that holds the tables, and the
theorems are about those functions. Where the source changes rows or fields step by step,
a class (`DeliveryOutbox`, `GateTables`, `RunRecord`, `CredentialRuntime`,
`DispatcherRuntime`, `Artifacts`) does the same with loops and guarded updates, and every
method is proved equal to its function: `ensures Value() == F(old(Value()), ...)`. The loops
of pure algorithms (`Utf8PrefixIndex`, `SplitDeliveryBody`, `LoadLineage`,
`CollectSseChatCompletion`) are methods proved against functions in the same way.

**Outbox.** Rows move between pending, claimed, delivered, failed and cancelled. At every
reachable state the parts of each group, in order, are either
`delivered* claimed? pending* cancelled*` or `delivered* failed cancelled*`.

**Gate.** Four tables and the workers of the dispatcher that holds the lease. A worker is
the program of `prepareDispatch` and `finalizeDispatch` cut at its transactions; other
transactions can come between any two, and the worker can stop there. Which branch a
worker takes for reasons outside these tables (pool busy, overlap policy, backlog limits)
is left open, so every theorem holds for all of them. The lease is exclusive: a crash ends
all workers, and the pool runs at most one worker for a dispatch at a time.

**Results that say what the code does not do.** The model follows the code. Where a
property one might expect fails, a lemma exhibits the case and another gives the exact
condition:

- A dispatch claimed for a granted approval, whose worker is lost before its execution
  run exists, is recovered by neither sweep: the gate run in `approved` blocks the claim
  sweep (dispatch-queue.js:286-290), and the approval sweep looks only at `dispatching`
  (approval-state.js:687). It stays claimed until the approval is cancelled
  (`GateExact.LostUntilCancelled`, `GateResults.LostClaimsHappen`); `GateRecovery.RecoversExactly`
  says which claims do return. README.md:135 promises recovery of expired claims that no
  active run owns; the code also requeues one whose approval was caught in `dispatching`,
  although its gate run counts as active.
- An authorization escalation can park nothing. The worker reads `cancel_requested_at`
  right after the provider answers (dispatcher-strategies.js:2187) and runs without a pause
  from there to the transaction that creates the approval (2200-2223), so within one process
  nothing comes in between. Another process can: if both a cancellation of the job and its
  re-enabling commit after that read and before the transaction takes the write lock, the
  transaction finds an enabled job, does not look at the cancellation, and the pending
  approval stands on a cancelled dispatch. `GateResults.ParkedUnlessEscalatedLate` is the
  exact condition of one step, `GateResults.LateEscalationHappens` the case;
  `GateEscalation.EscalatesCancelledOnlyInside` and `GateEscalation.ParkedInEveryOtherHistory`
  say that no other history leads there.
- The health check and start-up recovery do not look at a requested cancellation. The health
  check retries a run that it ended as cancelled, but only if its job is enabled, which
  `shouldRetry` reads in the same transaction (jobs.js:2300, dispatcher-maintenance.js:242).
  Cancelling a job disables it (jobs.js:2393), so such a retry needs the job to be enabled
  again first, or a cancellation of the run alone (`Completion.TimeoutCommitsIff`,
  `Completion.CancelledRunIsRetried`); until then nobody retries the run, puts it off, fires
  its children or delivers for it (`Completion.DisabledSetsNothingOff`,
  `Completion.CancelledJobIsNotRetried`). What is left while the job stays disabled are the
  job update of the health check (`Completion.CancelledRunUpdatesItsJob`) and the replay that
  recovery queues for an at-least-once job, which no worker can claim until the job is enabled
  (`Completion.ReplayCommitsIff`, `Completion.CancelledRunIsReplayed`). No other party commits
  an effect once a cancellation is requested (`Completion.CancellationWins`).
- A completion debt can part from the rows of its scope in two ways (`OutboxTheorems.DebtsMirrorIff`).
  A call that adds rows to a fully delivered scope leaves the debt closed
  (`OutboxTheorems.ReopeningHappens`); the senders in this repository claim the debt first, and
  a closed one refuses the claim (dispatch/hooks.mjs:417), so for them the delivery has to
  settle between claim and enqueue. And a sender writes the debt as delivering after its enqueue
  has committed (dispatch/hooks.mjs:630); if the dispatcher process has delivered the message by
  then, the debt goes back from closed to delivering (`OutboxTheorems.LateRecordHappens`).
- A draining stop of the worker pool never ends while tasks are queued, short of a stop at
  once, a new start or a lost lease
  (`WorkerPoolTheorems.DrainEndsIffNothingQueued`); every pool that may queue at all can be
  brought there (`WorkerPoolTheorems.DrainCanHang`). A start that overlaps such a stop can leave
  tasks waiting beside free workers: `WorkerPoolTheorems.BusyExactly` is the exact condition
  of one step, `BusyThroughout` says that no history without an overlap gets there,
  `EveryOverlapCanStall` that every overlap can where the pool may queue at all, and
  `OverlapsHappen` that overlaps are reachable.
- How a response body is cut into chunks decides the outcome for some bodies with a line over
  the buffer limit; `SseReader.CutsMatterIff` says for which, and
  `SseReader.LongCommentDecides` gives one: a long comment line before the sentinel line.

SHA-256 is taken to be injective where approval bindings are compared, so the bound records
are compared instead; stored artifacts use an arbitrary digest function. Times are natural
numbers and come in as arguments, as do the next cron occurrence, the outcome of an
unlink, the meaning of a JSON payload, the field checks of an artifact and the verdict on an
approver's scope.

## Model

| member | source | states |
|---|---|---|
| Utf16.SplitAtBoundary | delivery-outbox.js:32-34 | cutting between code points splits the UTF-8 size in two |
| Utf16.BoundaryIffSizesAdd | delivery-outbox.js:36-46 | the sizes of two halves add up exactly when the cut does not fall inside a surrogate pair |
| BodySplitter.PrefixIndexFits | delivery-outbox.js:36-46 | the prefix found fits the byte budget and ends at a code point |
| BodySplitter.PrefixIndexIsGreatest | delivery-outbox.js:36-46 | no longer prefix that ends at a code point fits the budget |
| BodySplitter.Utf8PrefixIndex | delivery-outbox.js:36-46 | the loop over code points returns that greatest prefix |
| BodySplitter.RawPartsFit | delivery-outbox.js:72-86 | every raw part keeps the limit less the reserve for its prefix |
| BodySplitter.RawPartsTile | delivery-outbox.js:72-86 | the raw parts are not empty, every cut lies between code points, and the parts with the white space dropped between them spell the body |
| BodySplitter.RawPartsKeepText | delivery-outbox.js:72-86 | the parts carry exactly the non-blank characters of the body, in order |
| BodySplitter.PartsWithinLimit | delivery-outbox.js:88-102 | every part that is returned, prefix included, keeps the byte limit |
| BodySplitter.SplitSucceeds | delivery-outbox.js:62-102 | from a limit of 256 bytes on and below 10^14 parts the split never fails, and returns the prefixed raw parts |
| BodySplitter.SplitNeverFails | delivery-outbox.js:48-56 | a body of fewer than 10^14 code units splits without an error under every limit from 256 bytes on, and under Telegram's default |
| BodySplitter.SplitRaw | delivery-outbox.js:72-86 | the shrinking loop terminates and yields the raw parts |
| BodySplitter.SplitDeliveryBody | delivery-outbox.js:62-102 | the whole split with its errors, as specified by SplitBody |
| OutboxInvariants.NothingExhausted | delivery-outbox.js:645-660 | from fresh enqueues no waiting row runs out of attempts, so the exhausted-pending branch changes nothing |
| OutboxInvariants.StepForward | delivery-outbox.js:608-969 | every call but enqueue and operator retry keeps the invariant and moves each row forward |
| OutboxInvariants.ReviveKeeps | delivery-outbox.js:930-969 | an operator retry revives the failed part and the cancelled ones behind it and keeps the group shape |
| OutboxEnqueue.MultipartOnNewGroup | delivery-outbox.js:461-521 | for a new group the call appends all its parts, numbered, pending and contiguous, exactly if each has a body and a free key; otherwise it raises or adds nothing |
| OutboxEnqueue.EnqueueAddsExactly | delivery-outbox.js:312-521 | an enqueue, single or multipart, adds exactly its own rows if the condition on the table before the call holds, and otherwise leaves the table as it is |
| OutboxEnqueue.MultipartOnStoredGroup | delivery-outbox.js:276-310 | a multipart call on a group that is stored either repeats it and adds nothing, or raises |
| OutboxEnqueue.MultipartKeepsInv | delivery-outbox.js:461-521 | a multipart enqueue, repeated or new, keeps the invariant |
| OutboxEnqueue.SingleKeepsInv | delivery-outbox.js:312-459 | a single enqueue without explicit group metadata keeps the invariant |
| OutboxTheorems.StepKeepsInv | delivery-outbox.js:211-969 | every call keeps the invariant of the outbox |
| OutboxTheorems.OrderedIffInLanguage | delivery-outbox.js:211-221 | the pairwise order rule of a group is membership in the two-branch language of status words |
| OutboxTheorems.ReachableGroups | delivery-outbox.js:211-264 | at every reachable state each group is stored whole, spells a word of the language, and a claimed or delivered part has all earlier parts delivered |
| OutboxTheorems.OrderByDueSorts | delivery-outbox.js:662-690 | the rows picked for a claim are in claim order |
| OutboxTheorems.DueRowsAreFirst | delivery-outbox.js:632-693 | the picked rows are the first of all due rows, up to the limit |
| OutboxTheorems.OneDuePerGroup | delivery-outbox.js:662-690 | two parts of one group are never due together |
| OutboxTheorems.ClaimDueTheorem | delivery-outbox.js:608-693 | one call claims exactly the first due rows, each under its own fresh token, never two parts of one group, and changes no other row |
| OutboxTheorems.DebtsMirrorIff | delivery-outbox.js:192-209 | after a call, or a write of a hook, every debt with a settled row mirrors its rows, exactly unless the call will add rows (by EnqueueAddsExactly's condition) to a fully delivered scope or the hook writes what settled rows contradict |
| OutboxTheorems.ReopeningHappens | delivery-outbox.js:312-459 | from an empty outbox a tracked scope is delivered and another message enqueued under it: the debt stays closed |
| OutboxTheorems.LateRecordHappens | dispatch/hooks.mjs:281-296 | a sender that records its message as enqueued after its delivery leaves the debt of a delivered scope as delivering |
| OutboxTheorems.RunDebts | delivery-outbox.js:164-209 | over a run of calls and of hooks that create, write and delete debts, without the two exceptions, debts mirror their rows and a closed debt that no hook deletes stays closed |
| OutboxTheorems.LostTokenIsStale | delivery-outbox.js:751-756 | a token that leaves its row is held by no row |
| OutboxTheorems.FencedForever | delivery-outbox.js:728-852 | a call with a token that was recovered, settled or cancelled changes neither rows nor debts, however the run went on |
| OutboxTheorems.SettlesOnce | delivery-outbox.js:758-852 | a token settles its row at most once |
| OutboxTheorems.StepLowersTotal | delivery-outbox.js:223-264 | without enqueue and operator retry a call that moves a row strictly lowers the progress measure |
| OutboxTheorems.MovesBounded | delivery-outbox.js:608-969 | so the measure bounds how many calls can move rows |
| OutboxTheorems.EnqueueAgain | delivery-outbox.js:276-310 | repeating a keyed multipart call after any run changes nothing, raises nothing and returns the same rows as duplicates |
| OutboxStore.DeliveryOutbox.ReconcileCompletionDebt | delivery-outbox.js:192-209 | counts a scope's rows and sets its debt |
| OutboxStore.DeliveryOutbox.CancelLaterGroupParts | delivery-outbox.js:211-221 | cancels the waiting and failed parts behind a stopped one |
| OutboxStore.DeliveryOutbox.RecoverExpiredClaims | delivery-outbox.js:223-264 | requeues or fails every expired claim |
| OutboxStore.DeliveryOutbox.ClaimDueDeliveries | delivery-outbox.js:632-693 | recovery, exhausted rows, selection and claiming in one transaction |
| OutboxStore.DeliveryOutbox.ClaimDelivery | delivery-outbox.js:695-726 | claiming one row by id |
| OutboxStore.DeliveryOutbox.RenewDeliveryClaim | delivery-outbox.js:728-749 | renewing a claim under its token |
| OutboxStore.DeliveryOutbox.MarkDeliveryDelivered | delivery-outbox.js:758-784 | settling a claim as delivered |
| OutboxStore.DeliveryOutbox.RetryDelivery | delivery-outbox.js:786-820 | requeueing with back-off, or failing after the last attempt |
| OutboxStore.DeliveryOutbox.MarkDeliveryFailed | delivery-outbox.js:822-852 | settling a claim as failed and stopping the parts behind it |
| OutboxStore.DeliveryOutbox.CancelDelivery | delivery-outbox.js:854-884 | cancelling one row and the parts behind it |
| OutboxStore.DeliveryOutbox.CancelDeliveriesFor | delivery-outbox.js:886-928 | cancelling the rows of a run or a job |
| OutboxStore.DeliveryOutbox.RetryFailedDelivery | delivery-outbox.js:930-969 | the operator retry |
| OutboxStore.DeliveryOutbox.EnqueueDelivery | delivery-outbox.js:312-459 | storing one row, or reporting its duplicate or collision |
| OutboxStore.DeliveryOutbox.EnqueueMultipartDelivery | delivery-outbox.js:461-521 | splitting and storing all parts in one transaction, or none |
| ApprovalBinding.LoadLineage | approval-binding.js:88-103 | the walk through the parents with its three errors |
| ApprovalBinding.LineageIsTheChain | approval-binding.js:88-103 | the walk succeeds exactly for a chain of at most 64 parents that ends at a root, and returns it |
| ApprovalBinding.BindingCovers | approval-binding.js:27-81 | equal bindings mean the same job, dispatch and ancestors with equal contract columns in each |
| ApprovalBinding.BindingByColumns | approval-binding.js:4-37 | while jobs are only added, moved or disabled, a binding changes exactly when the job or an ancestor is disabled |
| GateInvariants.Frame | approval-state.js:42-59 | what an operation on one dispatch leaves untouched keeps the invariant of every other dispatch |
| GateSteps.RefusalKeeps | approval-state.js:540-574 | a refusal ends approval, gate run and dispatch together and keeps the invariant |
| GateSteps.GrantKeeps | approval-state.js:344-353 | granting releases the parked dispatch and keeps the invariant |
| GateSteps.NeverMismatched | approval-state.js:42-59 | the association check never finds a mismatch in a reachable state |
| GateSteps.SpendKeeps | dispatcher-strategies.js:1721-1750 | begin, execution run and mark together keep the invariant |
| GateSteps.FinishKeeps | dispatcher-strategies.js:1181-1371 | ending a run and its dispatch keeps the invariant |
| GateSteps.CancelJobKeeps | jobs.js:2374-2450 | cancelling a job with its dispatches, approvals and runs keeps the invariant |
| GateTheorems.StepKeeps | dispatcher-strategies.js:1478-2251 | every transaction of every party keeps the invariant and moves rows only forward |
| GateTheorems.HistoryKeeps | approval-state.js:383-538 | so does every history; decision_version counts the legal transitions exactly and ended rows stay ended |
| GateTheorems.OneLiveRun | dispatch-queue.js:167-293 | no dispatch ever has two live runs; behind a live run the dispatch is claimed or cancelled and every approval is spent |
| GateTheorems.GatesCoupled | approval.js:163-194 | the status of an approval fixes the status of its gate run, bounds that of its dispatch, and fixes the parity of its version |
| GateTheorems.RefusedForGood | approval-state.js:205-217 | a rejected, timed-out or cancelled approval never changes, its dispatch stays closed and no run spends it |
| GateTheorems.SpentOnce | approval-state.js:466-499 | at most one run spends an approval, and only one that ended as dispatched |
| GateTheorems.WhereExecutionsComeFrom | dispatcher-strategies.js:1721-1788 | a run becomes live only under the current claim and an enabled job, ungated or by spending a granted approval whose binding still matches, in one transaction |
| GateCounts.OthersAddNothing | dispatcher-strategies.js:1566-1580 | no other transaction adds a run or an approval |
| GateRecovery.RecoversExactly | dispatch-queue.js:271-293 | the two sweeps requeue a claimed dispatch exactly when its claim expired and no run of it is active or an approval was caught in dispatching |
| GateRecovery.GrantedClaimIsNeverRecovered | dispatch-queue.js:286-290 | a claim behind a granted approval is touched by neither sweep at any time |
| GateExact.HeldRowMoves | approval-state.js:189-217 | a dispatch held by a pending or granted approval and without a worker moves only when the approval is decided |
| GateExact.LostUntilCancelled | approval-state.js:643-740 | a claim lost behind a granted approval stays as it is over every history until the approval is cancelled, and never runs |
| GateResults.ParkedUnlessEscalatedLate | approval.js:176-194 | a step keeps every pending approval's dispatch parked if and only if it is not an escalation, by a worker past its own check, on a dispatch cancelled and a job enabled again since |
| GateResults.LateEscalationHappens | dispatcher-strategies.js:2187-2223 | that exception is reachable: the check passes first, then the cancellation and the re-enabling commit, then the escalation |
| GateEscalation.ClaimKept | jobs.js:2395-2402 | a claimed dispatch behind a run that stays live is cancelled by nothing but the cancellation of its job |
| GateEscalation.HistoryFlags | jobs.js:2416-2418 | over any history a live run whose dispatch is cancelled has its cancellation requested, so the check stops every earlier cancellation |
| GateEscalation.EscalatesCancelledOnlyInside | dispatcher-strategies.js:1836-1850 | over any history an escalation meets a cancelled dispatch only if its job was cancelled between the check and the escalation |
| GateEscalation.ParkedInEveryOtherHistory | dispatcher-strategies.js:2187-2223 | over every history without such a cancellation all pending approvals have their dispatches parked |
| GateResults.LostClaimsHappen | dispatcher-strategies.js:1502-1512 | a lost claim behind a granted approval is reachable |
| GateResults.DecisionExactly | approval-state.js:274-361 | what each decision on a pending approval does to approval, gate run and dispatch; granting never fails |
| GateResults.BindingMovesOnlyByDisabling | approval-binding.js:105-114 | a step other than an edit of a job changes an approval's binding exactly when it disables the job or an ancestor |
| GateTheorems.EnqueuedForGood | dispatch-queue.js:39-58 | after any history a repeated enqueue under the same id changes nothing, and returns the dispatch exactly if job, kind and source run agree |
| GateStore.GateTables.EnqueueDispatch | dispatch-queue.js:65-143 | a new pending dispatch, or the stored one under the same id, or an error |
| GateStore.GateTables.ClaimForWorker | dispatch-queue.js:167-198 | a claim under a fresh token, for a pending dispatch of an enabled job that no worker holds |
| GateStore.GateTables.RenewDispatchClaim | dispatch-queue.js:200-214 | renewing a live claim under its owner and token |
| GateStore.GateTables.Release | dispatch-queue.js:216-242 | giving a dispatch back under the dispatcher's identity |
| GateStore.GateTables.SetDispatchStatus | dispatch-queue.js:244-269 | closing an open dispatch under the dispatcher's identity |
| GateStore.GateTables.RecoverStaleDispatchClaims | dispatch-queue.js:271-293 | the sweep over expired claims |
| GateStore.GateTables.CancelDisabledDispatches | dispatch-queue.js:295-309 | the sweep over disabled jobs |
| GateStore.GateTables.ConsumeApprovalOccurrence | approval-state.js:226-254 | using up a refused root occurrence |
| GateStore.GateTables.CancelOneApproval | approval-state.js:540-574 | cancelling an active approval with what hangs on it |
| GateStore.GateTables.CancelApprovalForDispatch | approval-state.js:586-601 | cancelling the active approval of a dispatch |
| GateStore.GateTables.CancelApprovalsForJob | approval-state.js:603-619 | cancelling a job's approvals |
| GateStore.GateTables.CancelUnavailableJobApprovals | approval-state.js:621-641 | cancelling approvals of disabled jobs |
| GateStore.GateTables.TransitionPendingApproval | approval-state.js:274-366 | the decision on a pending approval with its forced cancellations and errors |
| GateStore.GateTables.BeginApprovalDispatch | approval-state.js:383-464 | begin, with its refusals, cancellations and errors in the source's order |
| GateStore.GateTables.MarkApprovalDispatched | approval-state.js:466-499 | spending a dispatching approval |
| GateStore.GateTables.DeferApprovalDispatch | approval-state.js:501-538 | taking a dispatching approval back |
| GateStore.GateTables.RecoverInterruptedApprovalDispatches | approval-state.js:643-740 | the sweep over dispatching approvals |
| GateStore.GateTables.CreateApproval | approval.js:39-213 | inserting an approval, its run and its parked dispatch, or an error |
| GateStore.GateTables.ReadApprovedGate | dispatcher-strategies.js:1513-1516 | reading the approval that lets the worker pass |
| GateStore.GateTables.OpenApprovalGate | dispatcher-strategies.js:1539-1594 | the gate transaction |
| GateStore.GateTables.CreateExecutionRun | dispatcher-strategies.js:1721-1797 | the execution transaction, gated or not |
| GateStore.GateTables.AbortIfCancelled | dispatcher-strategies.js:1836-1850 | the check for a requested cancellation, which ends the run or lets it escalate |
| GateStore.GateTables.EscalateAuthorization | dispatcher-strategies.js:2200-2251 | the escalation transaction |
| GateStore.GateTables.FinishRun | dispatcher-strategies.js:1181-1371 | ending a worker's run and its dispatch |
| GateCascade.ReachedExactly | jobs.js:2375-2389 | a cascade takes exactly the job and its descendants, each once, and ends even where parents form a cycle |
| GateCascade.ReachedAlone | jobs.js:2375-2389 | without a cascade only the job itself is taken, if it exists |
| GateCascade.CascadeIsHistory | jobs.js:2391-2445 | a cascade is a history of single cancellations, so every theorem about histories covers it |
| GateCascade.CascadeStopsExactly | jobs.js:2364-2450 | a cascade leaves the job and every descendant disabled, with no open dispatch, no active approval and no run that is not asked to stop, and changes no row of any other job |
| GateStore.GateTables.CollectJobs | jobs.js:2375-2389 | the loop over the queue of jobs with its set of seen ones |
| GateStore.GateTables.CancelWholeJob | jobs.js:2374-2450 | the whole cancellation, with or without its cascade |
| Completion.EffectsCommitOnce | run-completion.js:66-75 | over any interleaving a run ends once, with at most one continuation, job update, firing of children and delivery, and then nothing moves |
| Completion.CancellationWins | dispatcher-strategies.js:1181-1391 | once a cancellation is requested, no interleaving of completions, re-preparations, aborts and blocks commits an effect, and the run does not end otherwise than cancelled or blocked |
| Completion.LostFenceWins | run-state.js:340-403 | once the fence a run carries is no longer the lease, nobody but start-up recovery commits an effect, over any interleaving, and nobody else ends the run, unless it is cancelled before it started |
| Completion.CompletionCommitsIff | dispatcher-strategies.js:1181-1371 | one completion commits its effects exactly when it ended the run under a live fence without cancellation |
| Completion.AbortCommitsIff | dispatcher-strategies.js:545-650 | the same for one preparation abort |
| Completion.DisabledSetsNothingOff | jobs.js:2299-2308 | while a cancelled job stays disabled no interleaving of any parties retries its run, puts it off, fires its children or delivers |
| Completion.CancelledJobIsNotRetried | jobs.js:2391-2418 | so in whatever state a cancellation of the job meets its run, the run is retried only after the job is enabled again |
| Completion.TimeoutCommitsIff | dispatcher-maintenance.js:187-253 | the health check commits exactly when it ended the run, cancelled or not; it retries a cancelled one exactly if the job is enabled and has retries left, and otherwise updates the job |
| Completion.CancelledRunIsRetried | dispatcher-maintenance.js:231-252 | cancelled with its job, the job enabled again, timed out: the run ends as cancelled and is retried |
| Completion.CancelledRunUpdatesItsJob | dispatcher-maintenance.js:231-252 | without the enabling the timeout of the cancelled run still updates the job |
| Completion.ReplayCommitsIff | dispatcher.js:402-484 | orphan recovery commits exactly when the run was running and its crash was recorded, cancelled or not |
| Completion.CancelledRunIsReplayed | dispatcher.js:402-484 | a run cancelled with its job is marked crashed and its replay queued |
| Completion.OneRepreparationIsEnough | dispatcher-strategies.js:1373-1391 | evidence prepared a second time always matches, whatever happens before the second commit |
| CompletionStore.RunRecord.TransitionRunTerminal | run-state.js:340-403 | the compare-and-swap with its fence and its report |
| CompletionStore.RunRecord.PerformBookkeeping | dispatcher-strategies.js:1181-1371 | the completion transaction, undone on stale evidence |
| CompletionStore.RunRecord.AbortPreparedRun | dispatcher-strategies.js:545-650 | the abort transaction |
| CompletionStore.RunRecord.CommitTimeout | dispatcher-maintenance.js:187-253 | the health-check transaction with its quarantine |
| CompletionStore.RunRecord.CancelJobOfRun | jobs.js:2391-2444 | what cancelling the job does to its run: the job disabled, the dispatch closed, the run flagged or cancelled |
| CompletionStore.RunRecord.BlockRecovery | dispatcher.js:232-303 | blocking an orphan that cannot be recovered |
| CompletionStore.RunRecord.ProcessOrphan | dispatcher.js:402-484 | crash marking and replay of an orphan |
| CredentialTheorems.StepKeeps | credential-runtime.js:347-373 | every instruction, and a crash between any two, keeps the write-ahead invariant |
| CredentialTheorems.EveryFileIsOwed | credential-runtime.js:347-373 | a file on disk has exactly one row, and it still owes the removal |
| CredentialTheorems.CleanMeansGone | credential-runtime.js:455-496 | a row marked clean has no file |
| CredentialTheorems.ReplayedRunsAreClean | dispatcher.js:373-399 | a replay is queued only when its run has no file left, and none appears later |
| CredentialTheorems.OnlyFailuresRemain | credential-runtime.js:533-575 | after start-up recovery a remaining file belongs to a failed row, whose run is not replayed |
| CredentialStore.CredentialRuntime.MaterializeCredentials | credential-runtime.js:308-400 | the loop over the bindings up to the first that fails: for each the row and, for a file, the file, which may be refused, missing, incomplete or unsafe |
| CredentialStore.MaterializationIsTheLoop | credential-runtime.js:308-420 | that loop is an uninterrupted run of the instructions between which a crash may come, and ends in use or, after a failure, in the cleanup |
| CredentialStore.CredentialRuntime.CleanupMaterialization | credential-runtime.js:455-530 | the cleanup over presented and owed rows, with removals and status updates that fail, the second pass over the temporary paths, and the failures it reports |
| CredentialStore.CleanupIsTheLoop | credential-runtime.js:455-530 | the two passes are an uninterrupted run of the instructions, and mark the run clean exactly if nothing failed |
| CredentialStore.CleanupWithoutFailures | credential-runtime.js:455-530 | after an execution or a failed materialization: if nothing fails, all rows of the run are settled, no file of it is left, and it is marked clean |
| CredentialStore.CredentialRuntime.RecoverCredentialPresentations | credential-runtime.js:533-575 | the recovery loop, with removals and status updates that fail |
| CredentialStore.RecoveryIsTheLoop | credential-runtime.js:533-575 | the loop is an uninterrupted run of the instructions |
| CredentialStore.RecoveryWithoutFailures | credential-runtime.js:533-575 | if every removal works no file is left and only runs whose own cleanup failed or never reached a row are blocked |
| WorkerPoolTheorems.HistoryKeeps | dispatcher-runtime.js:52-213 | over any calls the keys are those of queued and running tasks, the bounds hold, and every accepted task is in exactly one place |
| WorkerPoolTheorems.StartsInOrder | dispatcher-runtime.js:111-133 | tasks start in the order of acceptance, each at most once |
| WorkerPoolTheorems.DropsOnlyThen | dispatcher-runtime.js:67-80 | only a lost lease and a stop that does not drain drop tasks |
| WorkerPoolTheorems.BusyExactly | dispatcher-runtime.js:111-194 | a step leaves an accepting pool with waiting tasks and free workers exactly if it is a start that takes over queued tasks while workers are free |
| WorkerPoolTheorems.BusyThroughout | dispatcher-runtime.js:111-213 | over any history in which no start overlaps a draining stop, an accepting pool has an empty queue or all workers busy |
| WorkerPoolTheorems.EveryOverlapCanStall | dispatcher-runtime.js:158-213 | every such overlap of a pool that may queue has a continuation that leaves a task waiting beside a free worker |
| WorkerPoolTheorems.NoQueueNoStall | dispatcher-runtime.js:184-194 | a pool whose concurrency is its limit never queues, overlaps or not |
| WorkerPoolTheorems.OverlapsHappen | dispatcher-runtime.js:196-213 | overlaps are reachable in every pool |
| WorkerPoolTheorems.DrainEndsIffNothingQueued | dispatcher-runtime.js:196-213 | a draining stop ends exactly when nothing is queued and nothing runs, so never with a queue |
| WorkerPoolTheorems.DrainCanHang | dispatcher-runtime.js:196-213 | every pool that may queue has a history after which a draining stop never gives up its lease, whatever finishes |
| WorkerPoolStore.DispatcherRuntime.RunQueued | dispatcher-runtime.js:111-133 | the loop that starts queued tasks |
| WorkerPoolStore.DispatcherRuntime.SubmitTask | dispatcher-runtime.js:184-194 | accepting or refusing a task |
| WorkerPoolStore.DispatcherRuntime.TaskSettles | dispatcher-runtime.js:125-130 | what follows the end of a task |
| WorkerPoolStore.DispatcherRuntime.Lose | dispatcher-runtime.js:67-80 | losing the lease |
| WorkerPoolStore.DispatcherRuntime.StopPool | dispatcher-runtime.js:201-213 | the two kinds of stop |
| CanonicalTheorems.KeyOrderTotal | handoff-artifact.js:44-50 | the key order of printed objects is total and strict |
| CanonicalTheorems.SortMeans | handoff-artifact.js:35-50 | sorting keeps the meaning, orders every object and fails only on a number that is not finite |
| CanonicalTheorems.CanonicalUnique | handoff-artifact.js:44-50 | two ordered values with the same meaning are the same |
| CanonicalTheorems.PrintRoundTrip | handoff-artifact.js:52-54 | parsing printed text gives the value back, so printing is injective |
| CanonicalTheorems.SameTextIffSameMeaning | handoff-artifact.js:35-54 | two values have the same canonical text exactly when they are the same JSON value up to key order, undefined as null and big integers as strings |
| CanonicalTheorems.ReloadIsStable | handoff-artifact.js:599-604 | parsing canonical text and canonicalising again gives the same text |
| ArtifactStore.Artifacts.PersistHandoffArtifact | handoff-artifact.js:557-597 | storing under the digest after the field checks, with the mismatch and immutability errors |
| ArtifactStore.ReloadValidates | handoff-artifact.js:599-620 | after any stores an artifact read back passes the field checks and the digest check again |
| ArtifactStore.ImmutableOnlyOnCollision | handoff-artifact.js:564-572 | storing the same meaning again changes nothing; the immutability error needs two meanings with one digest |
| SseReader.CollectSseChatCompletion | gateway.js:84-164 | the two nested loops of the reader with its buffer and its errors |
| SseReader.ReadsTheWholeText | gateway.js:124-150 | while the buffer fits the outcome is the fold over the lines of the whole text |
| SseReader.OverflowIsReported | gateway.js:134-138 | otherwise the first overflow is reported, unless a line failed before it |
| SseReader.ChunksDoNotMatter | gateway.js:124-150 | if no line is longer than the limit, every way of cutting the body gives the same outcome |
| SseReader.CutsMatterIff | gateway.js:57-60 | two ways of cutting a body differ in outcome if and only if it has a terminated line over the limit before every in-band error, followed by such an error or by a rest within the limit |
| SseReader.LongCommentDecides | gateway.js:134-138 | a body with a long comment line and the sentinel completes in one piece and overflows one unit at a time |
| SseReader.OutcomeIsFixed | gateway.js:124-150 | for every other body all cuts give the same, stated outcome |
| SseReader.CompletesIff | gateway.js:140-150 | the turn completes exactly when the body holds the sentinel line and no in-band error |
| SseReader.SuccessSawSentinel | gateway.js:144-150 | no body without the sentinel is ever taken for a completed turn |

## Left out

- Outbox: row ids, explicit ids, attachments, diagnostic texts, settlement timestamps, pruning and argument trimming; a row's id is its position, and rows are never deleted.
- OutboxTheorems.DueRowsAreFirst: rows that agree in due time and age are ordered by position and not by group id and part index, because ids are positions here.
- OutboxTheorems.RunDebts: runs with a reopening call or a contradicting hook are excluded, because such a step parts the debt from its rows; DebtsMirrorIff says exactly when that happens. Whether a hook writes at all (its claim refuses closed and recent debts, dispatch/hooks.mjs:380-450) is left open, so any write is allowed; WriteDebt keeps only the status of the debt.
- OutboxEnqueue.SingleKeepsInv: enqueueDelivery also accepts an explicit group and part numbers; with them one call can store a part of a group that is not whole.
- OutboxStore.DeliveryOutbox.EnqueueDelivery: the explicit id, group and part numbers are dropped, so a single row has no group.
- OutboxStore.DeliveryOutbox: tokens are a counter that never repeats in place of random UUIDs.
- Gate: handoff v4 jobs and their quarantine, deleted jobs, runs without a durable dispatch, and pruning.
- Gate: the reasons a worker hands back or drops its dispatch, the idempotency ledger itself (idempotency.js), retry counts, and what a finished run enqueues next, which are separate enqueue steps.
- Gate: workers of a dispatcher that has lost the lease; createApproval and the unowned updates are not fenced against them.
- GateStore.GateTables.CancelWholeJob: the deliveries a cancellation also cancels are those of OutboxStore.DeliveryOutbox.CancelDeliveriesFor; children are visited in the order of their rows.
- ApprovalBinding: handoff v4 payloads, and the approver scope rules (approval-binding.js:137-153), whose verdict is an argument.
- GateTheorems.HistoryKeeps: worker-side reads and the transaction that follows are separate steps, so some interleavings are allowed that one process cannot produce.
- Completion: evidence contents, agent status, dequeueing, a job update that retires a one-shot job, and the deliveries that follow after the commit.
- Completion.EffectsCommitOnce: the finalizer that signs evidence is one; any number of the other parties act.
- Credentials: provider calls, the contents of bindings, media other than the file or no-file distinction, in-memory buffers and audit events; each binding, write, removal and status update succeeds or fails by an argument.
- CredentialTheorems.StepKeeps: a recovery that runs beside workers of an older dispatcher is excluded, because the lease is exclusive.
- WorkerPool: the renewal timer; the continuation of a wait that was told runs before any other call.
- CanonicalJson: the digits of Number::toString, so a finite number is its printed text; toJSON methods, functions, symbols and sparse arrays.
- CanonicalTheorems.PrintRoundTrip: the parser reads the compact form that is printed, without white space.
- ArtifactStore: the field checks of validateHandoffArtifact are any predicate on the meaning of the artifact, so they cannot tell undefined from null or a big integer from its string.
- SseReader: bytes; chunks are decoded text, and the decoder yields U+FFFD at the end of a body cut inside a character.
- SseReader.ChunksDoNotMatter: JSON parsing of a payload is a function argument.
- Lease renewal, process control, notifications, CLI, backup, prompt text and provider sessions: I/O and thin checks.
