# A model of the document platform's concurrent core

The platform stores documents, runs each upload through an event-driven saga, has people verify and
approve documents, and lists everything through cursor pagination. This project models the parts of it
whose correctness depends on order, interleaving or arithmetic, and states what they keep:

- **Paging** (`cursors.dfy`, `keyset.dfy`, `cursor_history.dfy`): the keyset listing with its look-ahead
  row and cursor predicate, over a table that changes between fetches, against slicing the sorted table;
  and the client's cursor history on top of it.
- **The upload pipeline** (`sagas.dfy`, `saga_runs.dfy`, `saga_effects.dfy`, `pipeline.dfy`,
  `upload_saga.dfy`, `every_run.dfy`, `pipeline_safety.dfy`, `deliveries.dfy`, `worker.dfy`,
  `scan_outcomes.dfy`, `handling.dfy`, `dedupe.dfy`, `promotion_races.dfy`): the saga coordinator in its
  Redis keyspace, then the whole protocol as a step system. Each coordinator call, database write and
  scanner call is one atomic step; any number of deliveries are in progress at once, and a delivery that
  meets a failing Redis is a move of its own, so an event may be dispatched again. `EveryRun` is about every
  such run, `PipelineSafety` about what is true besides when each event is dispatched by at most one
  delivery, retries included; `ScanOutcomes` and `Handling` are about deliveries whose calls are all
  answered, up to the end of an upload; `Dedupe` and `PromotionRaces` show what a second dispatch breaks.
  `Workers.Worker` is the handlers' own control flow: each of its methods moves the step system only by
  legal moves, so what `EveryRun` says holds of it.
- **Resilience** (`retry.dfy`, `breaker.dfy`, `outbox.dfy`, `locks.dfy`): the backoff loop, the circuit
  breaker under interleaved calls, the dispatcher's attempt accounting, the timed token-owned lock.
- **Decisions** (`decisions.dfy`, `decision_services.dfy`): deciders competing for approvals and
  verifications as a step system over the lock model, and the two services as classes; a service call is
  shown to be the undisturbed run of one decider.
- **Edges** (`scanner.dfy`, `ratelimit.dfy`, `rbac.dfy`, `hub.dfy`): the clamd stream, the rate limiter,
  the permission cache, the WebSocket hub.

Objects the program updates in place are classes (`Repo`, `Coordinator`, `Worker`, `Breaker`,
`Dispatcher`, `Lock`, `DecisionService`, `RateLimiter`, `RbacService`, `Hub`); their methods are tied to
functions on values, and the lemmas are about runs of those functions. The outside world is a parameter:
replies of the database, Redis, NATS, the scanner and the socket, the clock, random draws and fresh ids
are arguments of the methods and moves, so a statement about every run covers every failure they admit.

Where the code does not meet what one would expect, the code is kept and the exact condition is stated,
with an input on the failing side:

- `Keyset.FrozenWalkExactly`, `Keyset.TiedRowsWalk`: when a walk over sort keys that float64 rounds is right.
- `CursorHistory.NextFaithfulExactly`, `CursorHistory.WindowNeedsServedLimit`: when the client's pages and
  window are the server's.
- `Sagas.AggKeysCollideExactly`: when two aggregate types share index keys.
- `SagaRuns.UnknownStepBreaksProgress`: when an unknown step name does harm.
- `Deliveries.OverwritesWhatLandedBetween`, `PromotionRaces.RejectionLost`: when promoting a document
  overwrites a decision.
- `EveryRun.FailedNeverCompletes`, `PromotionRaces.FailedSagaPromotes`: a saga that failed before it completed
  promotes nothing; one that a repeated event fails after it completed still may.
- `Dedupe.SecondDispatchSkipsAnAction`, `Dedupe.ReplayedUploadSkipsMetadata`: when a repeated event completes
  a step whose action never ran.
- `Retry.FirstWaitIsBase`: when the first wait is the base delay.
- `Breakers.ClosesAreEarnedExactly`, `Breakers.StaleSuccessCloses`: when a half-open circuit is sure to close
  on its own probes only.
- `Outbox.TerminalRowsPublishedOnce`, `Outbox.RefusedUpdatePublishesTwice`: when a row is published exactly once.
- `Decisions.DecidedAtMostOnce`, `Decisions.LateSaveOverwrites`: saves within the lock's lifetime suffice, and
  a save after it can do harm at every state.
- `Decisions.NoEarlyResolution`, `Decisions.ChainOpenedTooLate`: no chain opened between a decider's count and
  its write suffices for a resolution to be due, and one opened then breaks it at every state.
- `RateLimit.LostExpiryBlocksForever`, `RateLimit.LostExpirySticks`: when an identity is refused for good.
- `DecisionServices.CloserDecides`, `DecisionServices.RejectionOverridden`: which decision the document takes.
- `Rbac.FailedDropStaysRight`, `Rbac.FailedRoleDropStaysRight`, `Rbac.EditorKeepsRevokedRight`: when a failed
  cache deletion leaves the cache right.

## Model

| member | source | states |
|---|---|---|
| Cursors.ServedLimit | backend/internal/pkg/pagination/pagination.go:63-68 | the served page size lies in 1..100, is the one asked for exactly when that is in range, 20 when none was asked for, and 100 when too much was |
| Cursors.Normalize | backend/internal/pkg/pagination/pagination.go:54-93 | which requests are refused with which error, and every default and clamp of those accepted |
| Cursors.CursorRoundTrip | backend/internal/pkg/pagination/pagination.go:115-161 | the id always survives the cursor; the sort value survives exactly when it is not a number that float64 rounds |
| Cursors.IntegersWithin53BitsAreExact | backend/internal/pkg/pagination/pagination.go:134-151 | every integer within 2^53 survives the trip through float64 |
| Cursors.Float64IsNearest | backend/internal/pkg/pagination/pagination.go:134-151 | any other integer becomes the nearest one that 53 bits hold, an even one from halfway |
| Keyset.FirstIsOrderedPrefix | backend/internal/repository/repository.go:112-114 | the ordered, limited query returns the least rows by (key, id), in that order, without repetition |
| Keyset.FirstIsSorted | backend/internal/repository/repository.go:112 | in an ascending listing key and id ascend, in a descending one both descend |
| Keyset.Repo.BaseQuery | backend/internal/repository/repository.go:155-186 | the row set left by scopes, known filters and the search is the matching rows |
| Keyset.Repo.BuildMeta | backend/internal/repository/repository.go:215-230 | the look-ahead row sets has-more, and the next cursor is that of the last row kept |
| Keyset.Repo.List | backend/internal/repository/repository.go:93-128 | a listing is the specified page of the matching rows, sorted by the mapped column or by created_at, and exactly which cursors are refused |
| Keyset.WalkOrdered | backend/internal/repository/repository.go:188-206 | over any changing tables the pages of a walk stay in (key, id) order and past the starting cursor |
| Keyset.WalkNeverRepeats | backend/internal/repository/repository.go:93-128 | whatever is inserted or deleted between fetches, no id is listed twice, in either direction, when the cursor of each boundary row leaves the rows its exact sort value would leave |
| Keyset.WalkMissesNothing | backend/internal/repository/repository.go:93-128 | when has-more turns false, every row present throughout has been listed, under the same condition |
| Keyset.ExactKeysWalkExact | backend/internal/pkg/pagination/pagination.go:134-151 | sort values that survive the cursor meet that condition |
| Keyset.PageIsSlice | backend/internal/repository/repository.go:188-230 | the page behind a cursor that leaves the rows of its exact sort value is slice [j, j+limit) of the sorted table, with its counts and next cursor |
| Keyset.FrozenWalk | backend/internal/repository/repository.go:188-230 | on a frozen table the pages concatenate to the sorted table, there are max(1, ceil(n/limit)) of them, each reports n, and the returned counts add up to n |
| Keyset.FrozenWalkExactly | backend/internal/repository/repository.go:188-230 | for every table and page size the walk lists the sorted table exactly when each page boundary's cursor leaves the rows its exact sort value would leave |
| Keyset.ExactTableCuts | backend/internal/pkg/pagination/pagination.go:115-161 | sort values that survive the cursor make every boundary exact |
| Keyset.TiedRowsWalk | backend/internal/pkg/pagination/pagination.go:134-151 | two rows with the same numeric key are both listed exactly when float64 holds the key |
| Keyset.IdSortStopsAfterOnePage | backend/internal/repository/repository.go:196-199 | sorting by id, there is a second page exactly when fetching it is a malformed query |
| CursorHistory.ScreenShowsItsWindow | frontend/src/hooks/useCursorPagination.ts:17-56 | after any session history entry k is the cursor of page k, the screen is that slice of the sorted table, and the summary names exactly its positions |
| CursorHistory.LoadedShowsSummary | frontend/src/hooks/useCursorPagination.ts:24-26 | once a result is applied a non-empty table shows its summary |
| CursorHistory.RestartShowsFirstPage | frontend/src/hooks/useCursorPagination.ts:44-47 | a reset shows the first page with no history, and no summary until it is loaded |
| CursorHistory.PrevUndoesNext | frontend/src/hooks/useCursorPagination.ts:28-42 | going back restores the page, and forward again restores the whole state |
| CursorHistory.NextFaithfulExactly | frontend/src/hooks/useCursorPagination.ts:28-38 | a step forward keeps entry k the cursor of page k exactly when it passes on the cursor of the page on screen |
| CursorHistory.StaleForwardDuplicatesPage | frontend/src/hooks/useCursorPagination.ts:28-38 | passing the same cursor twice shows one page under two page numbers |
| CursorHistory.WindowNeedsServedLimit | frontend/src/hooks/useCursorPagination.ts:49-56 | the first window is right for every table exactly when the hook's limit is one the server keeps |
| Sagas.KeysDistinct | backend/internal/saga/saga.go:50-55 | a saga key with an id without ':' is no index key, and determines the id |
| Sagas.AggKeysCollideExactly | backend/internal/saga/saga.go:53-55 | two different types have aggregates with one index key exactly when one type followed by ':' starts the other |
| Sagas.AggKeyInjective | backend/internal/saga/saga.go:53-55 | index keys of types without ':' determine the type and the aggregate |
| Sagas.AggKeyCollides | backend/internal/saga/saga.go:53-55 | two aggregates of overlapping types that share an index key |
| Sagas.Coordinator.StartSaga | backend/internal/saga/saga.go:89-117 | the store and outbox after a start, for every combination of failing writes |
| Sagas.Coordinator.MarkCompleted | backend/internal/saga/saga.go:138-149 | the counting loop marks exactly the named step, counts the completed ones, and detects a repeat |
| Sagas.Coordinator.CompleteSagaStep | backend/internal/saga/saga.go:130-165 | the store and outbox after completing a step, and exactly which calls are refused |
| Sagas.Coordinator.FailSaga | backend/internal/saga/saga.go:168-185 | the store and outbox after failing a saga, and that an enqueue error still leaves it failed |
| SagaRuns.AdvanceKeeps | backend/internal/saga/saga.go:138-157 | completing a new step keeps CurrentStep = min(completed, n-1) and completed status exactly at n |
| SagaRuns.UnknownStepBreaksProgress | backend/internal/saga/saga.go:152-153 | a step name the saga lacks breaks that unless the cursor is already on the last step |
| SagaRuns.StoredSagaProgress | backend/internal/saga/saga.go:130-165 | in every run a saga that has not failed keeps its progress, and has one step event per completed step |
| SagaRuns.StepStatuses | backend/internal/saga/saga.go:152-176 | in every run a step is failed exactly when a failure of it was stored, the saga exactly when there was one, and a step neither completed nor failed is running up to the current one and pending after it |
| SagaRuns.InOrderStatuses | backend/internal/saga/saga.go:150-157 | as long as steps complete in list order those before the current one are completed, it is running until the saga completes, and the rest are pending |
| SagaRuns.EnqueuesExactly | backend/internal/saga/saga.go:111-185 | in every run the outbox grows by exactly one event per start, newly completed step and failure that went through, with its type and the aggregate the saga was started for |
| SagaRuns.FindsLatest | backend/internal/saga/saga.go:107-126 | the index finds the latest saga started for exactly that aggregate, and always when nothing expired |
| SagaRuns.FailedIsAbsorbing | backend/internal/saga/saga.go:135-137 | in every continuation a failed saga stays failed, on the same step, with no further step completed |
| SagaRuns.InOrderCompletes | backend/internal/saga/saga.go:150-157 | completing all steps in list order completes a saga that has not failed |
| EveryRun.RunKeeps | backend/internal/worker/worker.go:119-280 | every run keeps the invariant behind the next six results, however often an event is dispatched |
| EveryRun.StepsInListOrder | backend/internal/worker/worker.go:224-257 | in every run upload-saga steps complete in list order, except that a failed saga's virus_scan is no longer completed |
| EveryRun.StepStatuses | backend/internal/saga/saga.go:138-176 | in every run a number of completed steps gives each step of a stored upload saga its status, and the cursor; only a failed saga's virus_scan is failed instead |
| EveryRun.FinalizeIsEarned | backend/internal/worker/worker.go:260-276 | in every run a handler changes a document's status only to pending verification, only after some moment at which an upload saga of it had all five steps completed, and only with rows that passed the scan |
| EveryRun.FailedStaysFailed | backend/internal/worker/actions.go:148-154 | an upload saga that ever failed is failed in every continuation, with its upload step completed and its scan not |
| EveryRun.FailedNeverCompletes | backend/internal/worker/worker.go:240-257 | a saga that failed before it completed never completes and never promotes a document, in every continuation |
| EveryRun.CompletedScanPassedGate | backend/internal/worker/actions.go:20-78 | in every run a completed virus_scan means every storage row seen had a checksum and, with a real scanner, every row with a key and provider scanned clean |
| EveryRun.RowsAreKept | backend/internal/worker/actions.go:108-125 | while nobody else records rows of a document the handlers keep those it has, and one without any gets exactly one, without an object, when a storage action succeeds |
| PipelineSafety.RunKeeps | backend/internal/worker/worker.go:119-257 | a run that dispatches each event by at most one delivery keeps the stronger invariant behind the results below |
| PipelineSafety.StepsCompleteInOrder | backend/internal/worker/worker.go:224-257 | in such runs steps complete in list order, and every completed step after upload had its own action succeed first |
| PipelineSafety.UnconsumedStepEvents | backend/internal/worker/worker.go:119-201 | in such runs two step events of a stored upload saga, each undelivered or with a delivery not yet over, exist only once the saga is complete, and are those of storage and indexing |
| PipelineSafety.OneStepEventWaiting | backend/internal/worker/worker.go:119-201 | so at most one step event of a saga is undelivered, waiting for an attempt, or being handled before its step completes |
| PipelineSafety.PromotedNeverFailed | backend/internal/worker/worker.go:260-276 | in such runs the saga that promoted a document never failed and ran all of its actions |
| PipelineSafety.FailedHasOnlyUploaded | backend/internal/worker/actions.go:148-154 | in such runs a saga that ever failed never completes, promotes nothing, and has exactly its upload step completed |
| Deliveries.OverwritesWhatLandedBetween | backend/internal/worker/worker.go:261-266 | a promotion overwrites a status other than draft exactly when the last status written to the document between the delivery's read and its write is another one |
| Deliveries.PromotionLosesUpdate | backend/internal/worker/worker.go:261-266 | in every run, whenever a delivery is about to promote, any status written first is lost to it |
| Deliveries.AtMostThreeAttempts | backend/internal/worker/worker.go:144-146 | in every run an event delivered once is dispatched at most three times |
| Deliveries.FailedCallRetries | backend/internal/worker/worker.go:204-276 | a call that fails, or finds nothing, starts the next attempt or after the third ends the delivery, and leaves nothing behind but a saga failed before its event was enqueued; any other call goes on |
| PromotionRaces.RejectionLost | backend/internal/worker/worker.go:261-266 | a run that dispatches each event once, in which a rejection is overwritten that way |
| PromotionRaces.RepeatedScanFailsPromoter | backend/internal/worker/actions.go:20-30 | from every reached state in which a completed saga is about to promote and a repeated saga.upload is about to scan, the saga may fail and promote its document all the same |
| PromotionRaces.OnceNeverRaces | backend/internal/worker/worker.go:127-136 | a run that dispatches each event by at most one delivery never reaches such a state |
| PromotionRaces.FailedSagaPromotes | backend/internal/worker/worker.go:127-136 | a run that gets there, with saga.upload delivered a second time while Redis is down |
| Workers.Worker.Do | backend/internal/worker/worker.go:46-61 | a handler's state changes only by legal moves of the step system |
| Workers.Worker.VirusScan | backend/internal/worker/actions.go:20-49 | the gate's control flow reaches exactly the program points of the step system, and returns an error exactly when its last call failed |
| Workers.Worker.ScanRows | backend/internal/worker/actions.go:31-78 | the loop over stored objects, including an infected one that fails the saga and goes on; an error exactly when its last call failed |
| Workers.Worker.ScanStoredObject | backend/internal/worker/actions.go:52-78 | one object: skipped, clean, infected with the saga failed, or an error exactly when its last call failed |
| ScanOutcomes.ScanDecides | backend/internal/worker/actions.go:20-78 | from every reached state with a scan about to start, answered calls come to the reload; it is clean exactly when all rows have checksums and, with a real scanner, every row with a key and provider is found clean; otherwise the saga is failed and the delivery ends without another attempt |
| ScanOutcomes.InfectedRowFailsSaga | backend/internal/worker/actions.go:64-76 | from every reached state within the loop, a row with a key and provider that is found infected fails the saga, and the delivery ends |
| Handling.UploadEnds | backend/internal/worker/worker.go:182-276 | from every reached state with a draft whose upload saga has just started, delivering its events and answering every call promotes it and completes the saga when the rows pass the scan, and fails the saga with no document changed when they do not |
| Handling.KickAnswered | backend/internal/worker/worker.go:204-219 | document_uploaded completes the upload step of a running saga and enqueues its event |
| Handling.PlainAnswered | backend/internal/worker/worker.go:182-219 | notifications, ignored events, and document_uploaded without a running saga change nothing |
| Handling.StepAnswered | backend/internal/worker/worker.go:224-257 | an answered step event whose action passes completes the running saga's current step and enqueues its event, going on to finalize after the last |
| Handling.FinalizeAnswered | backend/internal/worker/worker.go:260-276 | an answered finalize promotes a draft and enqueues verification_needed, and leaves any other document alone |
| Handling.LostSagaGivesUp | backend/internal/worker/worker.go:224-228 | a step event whose saga cannot be found changes nothing and ends after its attempts |
| Workers.Worker.OnSagaStep | backend/internal/worker/worker.go:224-257 | without an error the event's saga has failed or is past the handled step |
| Workers.Worker.OnDocumentUploaded | backend/internal/worker/worker.go:204-219 | the first step's handler ends or asks for a retry, by legal moves only |
| Workers.Worker.Finalize | backend/internal/worker/worker.go:260-276 | promotion and its notification, by legal moves only |
| Workers.Worker.Dispatch | backend/internal/worker/worker.go:182-201 | routing: a step event handled without an error left its saga failed or past that step |
| Workers.Worker.Take | backend/internal/worker/worker.go:127-136 | the dedupe key is set, or with Redis down it is not, and the message is taken either way |
| Workers.Worker.Attempt | backend/internal/worker/worker.go:144-156 | at most three attempts; acknowledged exactly when the last call did not fail, given back when the context is done before the next or is the last error, dead-lettered after the third otherwise |
| Workers.Worker.Process | backend/internal/worker/worker.go:119-157 | a message whose key is set changes nothing; any other, seen before or not, gets its key unless Redis is down, one to three attempts, and the outcome they call for |
| Dedupe.SecondDispatchSkipsAnAction | backend/internal/worker/worker.go:224-257 | from every reached state, a handled event of step k that comes again while Redis cannot tell completes the saga's current step f, whose action has then run exactly when it had before or f is k |
| Dedupe.ReplayedUploadSkipsMetadata | backend/internal/worker/worker.go:127-136 | a run in which a replayed saga.upload completes metadata_extraction without its action |
| Retry.Do | backend/internal/pkg/retry/retry.go:37-72 | between 1 and MaxAttempts calls, ending at the first success, permanent error, last attempt or cancelled wait, with the verdict that names; wait k lasts the k-th delay |
| Retry.SucceedsWhen | backend/internal/pkg/retry/retry.go:54-71 | the loop succeeds exactly when some attempt does and all before it may be retried |
| Retry.WaitsAreGeometric | backend/internal/pkg/retry/retry.go:74-84 | without jitter wait k is min(Base*Factor^k, MaxDelay) |
| Retry.FirstWaitIsBase | backend/internal/pkg/retry/retry.go:14 | the first wait is BaseDelay, as its comment says, exactly when MaxDelay equals it |
| Retry.DefaultWaits | backend/internal/pkg/retry/retry.go:38-49 | with every option left to its default there are three attempts, 200 ms and then 400 ms apart |
| Retry.SpreadIsEven | backend/internal/pkg/retry/retry.go:74-84 | the jitter's factor grows evenly with the draw from 1 - Jitter up to 1 + Jitter |
| Retry.TotalWaitBounded | backend/internal/pkg/retry/retry.go:74-84 | with jitter the waits add up to at most (MaxAttempts-1)*MaxDelay*(1+Jitter) |
| Breakers.Breaker.Allow | backend/internal/pkg/breaker/breaker.go:84-106 | admission and the new fields, in each state |
| Breakers.Breaker.RecordFailure | backend/internal/pkg/breaker/breaker.go:108-120 | the fields after a failure, in each state |
| Breakers.Breaker.RecordSuccess | backend/internal/pkg/breaker/breaker.go:122-135 | the fields after a success, in each state |
| Breakers.Breaker.Execute | backend/internal/pkg/breaker/breaker.go:71-82 | a refused call changes nothing; an admitted one records its result |
| Breakers.NeverWedged | backend/internal/pkg/breaker/breaker.go:84-142 | in every interleaving a half-open breaker with no probe of its epoch outstanding admits the next call |
| Breakers.AdmittedExactly | backend/internal/pkg/breaker/breaker.go:84-106 | in every interleaving a call is admitted always while closed, while open exactly when the cooldown since the latest opening is over, and while half-open exactly when fewer than HalfOpenMax were admitted since it became so |
| Breakers.ReportedExactly | backend/internal/pkg/breaker/breaker.go:108-142 | in every interleaving a result opens, closes or keeps the breaker as the counts of the log say, and changes nothing while it is open |
| Breakers.FailuresAreTrailingRun | backend/internal/pkg/breaker/breaker.go:108-142 | the failure counter is the run of failures since the breaker last became closed, below the threshold |
| Breakers.OpensAtThreshold | backend/internal/pkg/breaker/breaker.go:111-116 | a closed breaker opens exactly on the failure that brings that run to the threshold |
| Breakers.NoAdmissionDuringCooldown | backend/internal/pkg/breaker/breaker.go:90-98 | no call is admitted within Cooldown of any earlier opening |
| Breakers.HalfOpenAdmitsAtMost | backend/internal/pkg/breaker/breaker.go:99-105 | a stretch that stays half-open admits at most HalfOpenMax calls |
| Breakers.ClosesAreEarnedExactly | backend/internal/pkg/breaker/breaker.go:84-135 | every continuation that closes a half-open epoch took HalfOpenMax successes of its own probes exactly when no older call was running at its beginning |
| Breakers.StaleCloseExists | backend/internal/pkg/breaker/breaker.go:122-135 | with an older call running, some continuation closes on its success |
| Breakers.CanClose | backend/internal/pkg/breaker/breaker.go:99-128 | from every reached half-open state, successes of its own probes close the breaker |
| Breakers.StaleSuccessCloses | backend/internal/pkg/breaker/breaker.go:122-135 | an interleaving in which a success from before the opening closes the circuit while the probe runs |
| Outbox.Dispatcher.Enqueue | backend/internal/pkg/outbox/outbox.go:49-68 | one pending row with no attempts is appended |
| Outbox.Dispatcher.PublishWithRetry | backend/internal/pkg/outbox/outbox.go:157-163 | one publish is recorded exactly when some attempt within the limit is acknowledged and every earlier one may be retried |
| Outbox.Dispatcher.MarkFailed | backend/internal/pkg/outbox/outbox.go:165-175 | the row is charged one attempt and fails at the limit |
| Outbox.Dispatcher.DispatchOnce | backend/internal/pkg/outbox/outbox.go:123-155 | a cycle is the fold of single deliveries over its batch, stopping with an error at the first published row whose update is refused |
| Outbox.RunKeeps | backend/internal/pkg/outbox/outbox.go:123-175 | in every run attempts and publishes are accounted for row by row, terminal rows never change, and rows are conserved |
| Outbox.AccountsAreExact | backend/internal/pkg/outbox/outbox.go:123-175 | in every run a row's publishes are the cycles that reached it and had an attempt acknowledged, its attempts the others whose update went through; it is published exactly when a publish was recorded and failed exactly when the limit was charged |
| Outbox.TerminalRowsPublishedOnce | backend/internal/pkg/outbox/outbox.go:141-152 | a published row had one successful publish and a failed one none, exactly when no status update after a publish of it was refused |
| Outbox.CleanRunsLoseNothing | backend/internal/pkg/outbox/outbox.go:147-152 | with successful updates that is every row |
| Outbox.RefusedUpdatePublishesTwice | backend/internal/pkg/outbox/outbox.go:141-152 | a run with one refused update, in which the row is published twice |
| Outbox.CleanCycleFalls | backend/internal/pkg/outbox/outbox.go:165-175 | a cycle with successful updates lowers the attempts left by at least its batch size, min(batch, pending) |
| Outbox.ClosedQueueDrains | backend/internal/pkg/outbox/outbox.go:107-155 | once nothing is enqueued, as many such cycles as attempts left, with any others between, leave nothing pending |
| Locks.Lock.Acquire | backend/internal/pkg/lock/lock.go:23-29 | taken exactly when no unexpired entry is there |
| Locks.Lock.Release | backend/internal/pkg/lock/lock.go:33-43 | only an unexpired entry with the caller's token is deleted |
| Locks.Lock.WithLock | backend/internal/pkg/lock/lock.go:47-65 | polling ends at the first poll that finds the store failing or the key free, or at cancellation; the protected function runs with the lock held, which is then released |
| Locks.AtMostOneOwner | backend/internal/pkg/lock/lock.go:23-43 | in every timed run a key has at most one unexpired, unreleased owner |
| Locks.ReleaseFreesOnlyItsOwn | backend/internal/pkg/lock/lock.go:31-43 | a release, however late, leaves every other owner's lock in place |
| Locks.FreeUnlessOwned | backend/internal/pkg/lock/lock.go:23-29 | a key is taken exactly while someone owns it, so an expired owner blocks nobody |
| Decisions.DecidedAtMostOnce | backend/internal/service/verification.go:96-108 | when saves land within the lock's lifetime, each record leaves pending at most once |
| Decisions.LateSaveOverwrites | backend/internal/service/verification.go:96-108 | whenever a decider has loaded a pending record whose lock is free again, a newcomer may decide it and the late save decides it once more |
| Decisions.OverrunDecidesTwice | backend/internal/service/verification.go:96-108 | a run that leads there: a verification decided twice |
| Decisions.LastDecisionResolves | backend/internal/service/approval.go:102-162 | once a document's last chain is decided and everyone has finished without error, some decider resolved it since that chain was opened, when no chain was opened between a decider's count and its write |
| Decisions.NoEarlyResolution | backend/internal/service/approval.go:140-148 | under the same condition nobody writes, even the same status again, or announces the outcome while an approval of the document is pending |
| Decisions.OneChainUndisturbed | backend/internal/service/approval.go:57-93 | with at most one chain per document the condition always holds |
| Decisions.ChainOpenedTooLate | backend/internal/service/approval.go:140-154 | from every reached state a chain opened while a decider is about to write is pending when the status is written |
| DecisionServices.DecisionService.CreateChain | backend/internal/service/approval.go:57-93 | all levels are created or none, the error cases, the announcement, and the best-effort saga with its routing step |
| DecisionServices.DecisionService.MaybeResolveDocument | backend/internal/service/approval.go:140-163 | the chain's outcome is written and announced only when nothing is pending |
| DecisionServices.DecisionService.DecideApproval | backend/internal/service/approval.go:95-136 | the error, record, document, announcement and saga after one approver's decision, in every case |
| DecisionServices.DecisionService.DecideVerification | backend/internal/service/verification.go:90-136 | the error, record, document, announcement and saga after one verification decision, in every case |
| DecisionServices.DecisionService.CompleteVerificationSaga | backend/internal/service/verification.go:140-150 | the loop completes the listed steps up to the first refusal |
| DecisionServices.LevelsAreFresh | backend/internal/service/approval.go:65-79 | a chain has one pending record per approver, at levels 1, 2, ... |
| DecisionServices.ServiceOpensChain | backend/internal/service/approval.go:65-79 | the chain a service call creates is one the concurrent model opens |
| DecisionServices.CallIsSoloRun | backend/internal/service/approval.go:102-125 | a call has the outcome of one decider's undisturbed run in the concurrent model, and gives the lock back |
| DecisionServices.ChainClosesOnce | backend/internal/service/approval.go:140-162 | decisions one after another close a chain exactly once, when none is pending any more |
| DecisionServices.CloserDecides | backend/internal/service/approval.go:149-157 | the document takes the closing decision |
| DecisionServices.RejectionOverridden | backend/internal/service/approval.go:149-157 | a rejection followed by a closing approval leaves the document approved |
| DecisionServices.DecisionCompletesSaga | backend/internal/service/verification.go:140-150 | with the store up a decision completes its verification's saga unless that had failed |
| DecisionServices.ChainIsRouted | backend/internal/service/approval.go:80-93 | a chain opened with the store up has a running saga with exactly its routing step completed |
| DecisionServices.ClosingCompletesChain | backend/internal/service/approval.go:126-136 | with the store up a closing decision completes the decision step, and the saga exactly when routing was completed |
| DecisionServices.ChainSagaEnds | backend/internal/service/approval.go:80-136 | the saga of a chain opened and closed with the store up is running until it closes and completed then |
| Scanner.Scan | backend/internal/worker/scanner.go:52-98 | what was sent is always the start of the complete stream; asked in full and answered, the result is clean exactly when the reply starts with "stream: OK", else infected exactly when "FOUND" is in its first 4096 characters, else unexpected; and exactly when each other error is returned |
| Scanner.HeaderRoundTrip | backend/internal/worker/scanner.go:64-71 | a data header reads back as its length and is never the terminator |
| Scanner.MagicIsCommand | backend/internal/worker/scanner.go:61 | the stream begins with the command and a zero byte |
| Scanner.StreamRoundTrip | backend/internal/worker/scanner.go:60-83 | however the reader splits the content, the stream decodes chunk by chunk to exactly it |
| Scanner.PrefixNeverDecodes | backend/internal/worker/scanner.go:72-83 | nothing short of the complete stream decodes |
| RateLimit.Normalized | backend/internal/middleware/ratelimit.go:19-24 | the limit is positive, and the configured one when that is |
| RateLimit.RateLimiter.Handle | backend/internal/middleware/ratelimit.go:27-49 | admission and the counter after a request, Redis failing open |
| RateLimit.IdentityExactly | backend/internal/middleware/ratelimit.go:28-34 | two requests are counted together exactly when both are of one user, or of no user and one address |
| RateLimit.AtMostTwiceTheLimit | backend/internal/middleware/ratelimit.go:34-48 | one identity is admitted at most 2*limit times in any half-open 60-second interval |
| RateLimit.AtMostLimitPerWindow | backend/internal/middleware/ratelimit.go:34-48 | and at most limit times in the window of its counter |
| RateLimit.RefusedExactlyWhenFull | backend/internal/middleware/ratelimit.go:42-46 | a request is refused exactly when its identity's running window has used up the limit |
| RateLimit.OthersDoNotCount | backend/internal/middleware/ratelimit.go:28-34 | other identities change neither a counter nor who is admitted under it |
| RateLimit.LostExpiryBlocksForever | backend/internal/middleware/ratelimit.go:39-46 | once the expiry could not be set and the limit is used up, the identity is refused at every later time unless Redis is down |
| RateLimit.LostExpirySticks | backend/internal/middleware/ratelimit.go:34-41 | a run of requests that leads there |
| Rbac.RbacService.UserRoutes | backend/internal/service/rbac.go:53-90 | cached or not, the set is the one the tables grant, and a lookup is a step of the sequence model |
| Rbac.RbacService.LoadRoutes | backend/internal/service/rbac.go:69-79 | the loops collect exactly the granted keys |
| Rbac.RbacService.HasPermission | backend/internal/service/rbac.go:40-50 | the answer is the uncached one |
| Rbac.PermittedExactly | backend/internal/service/rbac.go:40-79 | a user is permitted exactly when one of its roles is super_admin or has a permission for the route or the wildcard |
| Rbac.RbacService.InvalidateUser | backend/internal/service/rbac.go:93-95 | the user's set, and no other, is dropped |
| Rbac.RbacService.InvalidateRoleUsers | backend/internal/service/rbac.go:118-130 | exactly the role's users' sets are dropped, or some of them before a failure |
| Rbac.RbacService.AssignPermissions | backend/internal/service/rbac.go:99-115 | replacement or rollback, repeated ids rolling back, and the invalidation |
| Rbac.RbacService.AssignRoles | backend/internal/service/rbac.go:133-149 | replacement or rollback, repeated ids rolling back, and the invalidation |
| Rbac.CacheNeverStale | backend/internal/service/rbac.go:53-149 | along every sequence of lookups, assignments, invalidations and expiries each cached set equals the recomputed one |
| Rbac.CheckAgrees | backend/internal/service/rbac.go:40-50 | a check answered from the cache at any point is the uncached answer |
| Rbac.FailedDropStaysRight | backend/internal/service/rbac.go:145-148 | a role assignment whose drop fails leaves the cache right exactly when the user was not cached or the old and new tables grant it the same keys |
| Rbac.FailedRoleDropStaysRight | backend/internal/service/rbac.go:124-128 | the same for a role's users, whichever were dropped before the failure |
| Rbac.RevokedGrantSurvives | backend/internal/service/rbac.go:133-149 | when a user loses every role and the drop fails, what the cache permitted it still permits, and the tables do not |
| Rbac.EditorKeepsRevokedRight | backend/internal/service/rbac.go:133-149 | an input at which that happens |
| Hubs.Hub.Register | backend/internal/ws/hub.go:54-65 | the client joins the set and its user's group |
| Hubs.Hub.Unregister | backend/internal/ws/hub.go:68-82 | the client leaves both, its channel closes, an emptied group goes; a second call changes nothing |
| Hubs.Hub.CollectTargets | backend/internal/ws/hub.go:91-96 | the targets are the named users, empty names aside |
| Hubs.Hub.Send | backend/internal/ws/hub.go:101-105 | the event joins the client's queue if it has room, and is dropped otherwise |
| Hubs.Hub.PublishToUsers | backend/internal/ws/hub.go:85-108 | every registered addressed client with room gets the event, nobody else does, and no target means everybody |
| Hubs.Hub.WriteOne | backend/internal/ws/hub.go:121-128 | one turn of the writer: next event in order, stopping on an error or a closed empty channel |
| Hubs.WriterDrains | backend/internal/ws/hub.go:121-128 | from every reached state a running writer whose socket works delivers the queue in order, and stops after it when the channel is closed |
| Hubs.IndexIsGrouping | backend/internal/ws/hub.go:54-82 | in every run the index is the registered clients with a user grouped by it, with no empty group |
| Hubs.DeliveredInOrder | backend/internal/ws/hub.go:85-128 | delivered and queued events are, in order, those addressed to the client that found room, up to one failed last write |
| Hubs.NoSendAfterClose | backend/internal/ws/hub.go:68-108 | a channel is closed exactly when its client left, is never sent to again, and holds at most 32 events |

## Left out

- Cursors.CursorRoundTrip: text and time sort values are ranks; JSON, base64 and time formatting are taken as lossless, and trimming and lower-casing happen before the model.
- Keyset.Repo.List: database errors, preloads and the summary hook are not modelled, sort columns are never null, and the column lookup by tag is an exact field lookup.
- Keyset.WalkMissesNothing: rows keep their sort key and id throughout a walk; a row whose key changes may move past the cursor.
- CursorHistory.ScreenShowsItsWindow: the session is against a frozen table, each screen's cursor is used once, and the hook's limit is one the server keeps.
- SagaRuns.StoredSagaProgress: each coordinator call is one atomic step; finer interleavings of its read-modify-write lose updates.
- Workers.Worker.Process: two deliveries of one event at the same time, the key's 24-hour lifetime, undecodable messages and the dead-letter publish are not modelled.
- Workers.Worker.OnSagaStep: metadata extraction, storage and indexing are one call each that succeeds or not, without the document fields and index entries they write.
- Handling.UploadEnds: deliveries one after another and every call answered; the first event may arrive before the saga starts and enqueue errors may be ignored, and then an upload may stay where it is.
- Retry.Do: durations are real numbers, so the truncation of a scaled delay to nanoseconds is not modelled, and a cancelled wait counts in full.
- Breakers.Breaker.Execute: a panic in the protected call, which would skip the record step, is not modelled.
- Outbox.TerminalRowsPublishedOnce: a publish that reports an error is taken not to have reached the stream.
- Outbox.ClosedQueueDrains: cycles do not overlap; a cycle outliving its 5-second lock would.
- Decisions.LastDecisionResolves: audit records and the cache entry of the document are not modelled; after an error following a save nobody may resolve the chain, which is what the condition on failures says.
- Rbac.CacheNeverStale: role and permission rows, their codes and routes, and the set of users do not change; a role's soft delete does not invalidate the cache. An entry expiring between the existence test and the read of its members is not part of a sequential run.
- Hubs.DeliveredInOrder: JSON encoding and the read loop with its ping are not modelled; a client is a number instead of a pointer.
- The document status graph is not stated as an invariant: the decision services write a status without consulting it.
- Handlers, routing, authentication, cryptography, configuration, metrics, reports, generic create-read-update-delete services and the user interface would add only easy members.
- Postgres, Redis, NATS, MinIO and OpenSearch appear as maps, sets, sequences and a clock.
