# Task management backend: a verified model

This project models the concurrent core of a task-management backend: its
transactional outbox and queue workers, webhook delivery, task listing, CSV
export, idempotency keys, refresh tokens, optimistic concurrency, caches,
windowed counters and workspace membership. It states and proves what that code
keeps over every run, and where it keeps less than it seems to, exactly when.

`dafny verify dfyconfig.toml` checks everything.

## How it is modelled

Stores (Mongo collections, Redis keys, queues) are maps, and each single database,
cache or queue call is one atomic step. Code that runs concurrently is a state
machine over those steps: any number of handlers, dispatchers and workers
interleave freely, may stop between two calls, and a call may fail with or without
having taken effect. A property of all runs is an invariant kept by every step;
`Reachable` says that a state is reached by some run. Beside the machines stand
classes and methods in the form of the code, proved against the same functions the
machines use, or to do what the machine does on the same calls.

| file | subject |
|---|---|
| `Outbox.dfy`, `DispatchTurns.dfy` | the outbox repository and one dispatcher, in the code's form; backoff; its turns as paths of the machine |
| `Pipeline.dfy` | producers, dispatchers and workers as one machine |
| `DispatchSafety.dfy`, `EffectSafety.dfy`, `RecordSafety.dfy`, `RetryOutcome.dfy`, `RetryCauses.dfy`, `SmoothRetries.dfy`, `StalledEvents.dfy`, `ExportFiles.dfy` | what every run of it keeps |
| `PipelineRuns.dfy` | runs of it in which what is not kept goes wrong |
| `Processors.dfy`, `Producers.dfy` | the four processors and the producers, in the code's form |
| `WebhookFanOut.dfy` | delivery of events to webhooks over retries |
| `SortSpec.dfy`, `TaskOrder.dfy`, `CursorWalk.dfy`, `TaskRepository.dfy`, `ListingMeaning.dfy` | the task listing |
| `CsvExport.dfy` | the CSV export and a reader of section 2 of RFC 4180 with LF line ends |
| `Idempotency.dfy` | idempotency keys |
| `RefreshTokens.dfy` | token rotation and reuse detection |
| `CategoryVersions.dfy`, `CategoryCache.dfy`, `TaskVersions.dfy` | optimistic concurrency and the tracked cache |
| `RateLimits.dfy` | request and failed-login counters |
| `Membership.dfy` | invitations, memberships, the one owner |
| `ETags.dfy` | version tags in headers |

## What the proofs found

- Claims of an event are not bounded: the fifth failure removes `availableAt`, and
  an event without it is always due (`Outbox.NoLimitOnClaims`).
- An event whose dispatcher stops while it is PROCESSING is never selected again:
  it can be completed or come due again if and only if a dispatcher is still at work
  on it (`StalledEvents.SettlesIffOwned`).
- An error of the claim or of `markFailed` ends the whole pass, the events after it
  included (`Outbox.PassIsCutByUncaughtCalls`).
- A job can end dead without a letter, dead with a letter although its event is
  processed, or done with a letter: exactly when its worker made one of five calls and
  no repeated attempt set it right (`RetryCauses.RuleBrokenExactly`). Each of the five
  is made in some run (`PipelineRuns.EveryCauseHappens`). Where the worker's checks,
  searches and letters work and no mark is reported as failed that was made, none of
  this happens (`SmoothRetries.SmoothRunsEndByTheRule`).
- The e-mail processor keeps no record of processed events, though the documentation
  calls the job handlers idempotent: a mail is sent once more for every time its
  finished job was removed from the queue before the event was dispatched again
  (`EffectSafety.MailsAreCounted`), and this happens without any loss
  (`PipelineRuns.MailIsNotIdempotent`).
- A delivery's catch block can overwrite its own SUCCESS with FAILED, and the
  receiver then gets the event again (`WebhookFanOut.AcceptedTwice`); so it does when
  its answer is lost (`WebhookFanOut.AcceptedUnheardThenAgain`).
- `sort=_id:desc` sorts ascending (`SortSpec.IdDirectionHonoured`).
- Two requests share an idempotency record exactly when scope and key read the same
  written one after the other (`Idempotency.KeysAreTexts`): routes with a colon in them
  can meet.
- An idempotent handler can succeed once more for every expiry, failed `complete`
  or vanished record, and no more (`Idempotency.SuccessesBoundedByLosses`).
- Two overlapping refreshes can both accept one token, and a refresh past its checks
  reopens a session that logout or reset closes in between
  (`RefreshTokens.ClosingIsFinalUnlessInFlight`).
- A rate-limit key whose EXPIRE was never sent blocks its user for ever
  (`RateLimits.UnendingArises`, `RateLimits.StuckForever`); over one window's length the limit is 199, not 200.
- An invitation declined while it is being accepted stays DECLINED and makes a member
  all the same (`Membership.AcceptanceMarksIfPending`).

## Model

| member | source | states |
|---|---|---|
| Outbox.OutboxRepository.FindPending | src/outbox/infrastructure/repositories/outbox.repository.ts:42-56 | returns a batch the query allows: due events only, oldest first, at most `limit`, none skipped for a younger one |
| Outbox.BatchMeans | src/outbox/infrastructure/repositories/outbox.repository.ts:42-56 | the events of a batch are PENDING or FAILED with no time or one that has come, each once and oldest first; one that could be taken and is not is left out only by the limit, and is no older |
| Outbox.OutboxRepository.MarkProcessing | src/outbox/infrastructure/repositories/outbox.repository.ts:58-78 | the claim: only a PENDING or FAILED event is taken, its attempts rise by one, and a lost race returns nothing |
| Outbox.OutboxRepository.MarkCompleted | src/outbox/infrastructure/repositories/outbox.repository.ts:80-96 | sets a claimed event COMPLETED with its time, and no other event |
| Outbox.OutboxRepository.MarkFailed | src/outbox/infrastructure/repositories/outbox.repository.ts:98-154 | reads the attempts, then gives the event back as FAILED with its error: below five attempts with its next time, from five on without one |
| Outbox.OutboxDispatcher.Add | src/outbox/application/outbox-dispatcher.service.ts:52-71 | a job joins the queue once per id: adding an id the queue has changes nothing |
| Outbox.OutboxDispatcher.DispatchOne | src/outbox/application/outbox-dispatcher.service.ts:38-91 | one turn of the loop leaves the event as its own calls decide, and every other event alone; it throws if and only if the claim or a call of `markFailed` does |
| Outbox.OutboxDispatcher.Enqueue | src/outbox/application/outbox-dispatcher.service.ts:45-74 | the try block throws if and only if the type has no queue, the add fails or the completion fails, and completes the event exactly when the completion took effect |
| Outbox.OutboxDispatcher.DispatchPending | src/outbox/application/outbox-dispatcher.service.ts:32-93 | a whole pass is the independent outcomes of the events it comes to, which `Outbox.PassSettlesEveryEvent` and `Outbox.GivenBackIsDueAgain` state; it throws if and only if some event of the batch has an uncaught call that throws |
| Outbox.PassSettlesEveryEvent | src/outbox/application/outbox-dispatcher.service.ts:35-92 | failure isolation, field by field: an event the pass comes to is COMPLETED with its time if and only if it was claimed, its type has a queue, its job was added and the completion took effect; else FAILED with the error if it could be given back; else PROCESSING; its attempts rise by one, or it is as it was |
| Outbox.GivenBackIsDueAgain | src/outbox/application/outbox-dispatcher.service.ts:74-86 | an event given back after its first, second, third or fourth failure is due again exactly 1, 2, 4 or 8 s after it was given back; after the fifth it has no time and is due at once |
| Outbox.DelayDoubles | src/outbox/application/outbox-dispatcher.service.ts:80 | the wait is one second at first, doubles with every attempt, and never exceeds thirty |
| DispatchTurns.TurnIsAPath | src/outbox/application/outbox-dispatcher.service.ts:35-92 | every turn of the loop is a path of the machine, which leaves the event as the loop does and stops the dispatcher exactly where the loop throws |
| Outbox.PassIsCutByUncaughtCalls | src/outbox/application/outbox-dispatcher.service.ts:38-86 | the pass comes to its whole batch if and only if no event before the last has a claim or a call of `markFailed` that throws |
| Outbox.UnreachedStay | src/outbox/application/outbox-dispatcher.service.ts:35-43 | the events a cut pass does not come to stay as they were |
| Outbox.ClaimsAreSpaced | src/outbox/infrastructure/repositories/outbox.repository.ts:42-56 | after the k-th failure, k below five, the event is due again exactly 1, 2, 4, 8 s after it was given back, and the next claim is not earlier |
| Outbox.FifthClaimAfterFifteenSeconds | src/outbox/application/outbox-dispatcher.service.ts:74-85 | the fifth claim is at least 15 s after the first |
| Outbox.NoLimitOnClaims | src/outbox/infrastructure/repositories/outbox.repository.ts:109-133 | from the fifth failure on the event is due at every moment: `maxAttempts` does not end the claims |
| Outbox.AnyNumberOfClaims | src/outbox/infrastructure/repositories/outbox.repository.ts:48-51 | for every n there is a run, forward in time, with n claims of one event |
| DispatchSafety.AtMostOneOwner | src/outbox/infrastructure/repositories/outbox.repository.ts:58-78 | over all interleavings of any number of dispatchers an event has at most one owner, and an owned event is PROCESSING, or COMPLETED by a call that reported an error |
| DispatchSafety.AttemptsAreClaims | src/outbox/infrastructure/repositories/outbox.repository.ts:58-78 | `attempts` equals the number of successful claims |
| DispatchSafety.CompletedMeansEnqueued | src/outbox/application/outbox-dispatcher.service.ts:52-73 | an event is COMPLETED only after a job with its id was added to the queue of its type |
| DispatchSafety.JobsCarryTheirEvents | src/outbox/application/outbox-dispatcher.service.ts:52-71 | every job is in the queue of its event's type and carries that event's content |
| DispatchSafety.CompletedIsFinal | src/outbox/infrastructure/repositories/outbox.repository.ts:58-96 | a COMPLETED event is the same in every continuation of the run |
| StalledEvents.SettlesIffOwned | src/outbox/application/outbox-dispatcher.service.ts:35-92 | a PROCESSING event is COMPLETED or due again in some continuation if and only if a dispatcher is still at work on it |
| StalledEvents.StalledForEver | src/outbox/infrastructure/repositories/outbox.repository.ts:42-56 | without one it is the same in every continuation |
| StalledEvents.StalledIsReached | src/outbox/infrastructure/repositories/outbox.repository.ts:58-78 | a run comes to that: a claim, and its dispatcher stops |
| EffectSafety.EffectsAreCounted | src/infrastructure/processors/webhook.processor.ts:63-91 | in every reachable state the guarded body has succeeded exactly as often as its success was lost, plus one if and only if the event is marked or about to be; at most once without loss |
| EffectSafety.MailsAreCounted | src/infrastructure/processors/email.processor.ts:60-98 | the e-mail body has succeeded exactly as often as its success was lost or its finished job removed, plus one while the finished job is kept |
| PipelineRuns.MailIsNotIdempotent | src/infrastructure/processors/email.processor.ts:60-98 | a run without any loss in which a mail goes out twice |
| EffectSafety.MarkIsFirst | src/outbox/infrastructure/repositories/processed-event.repository.ts:18-31 | `markProcessed` is never called for an event that is already marked |
| RecordSafety.RecordBeforeEvent | src/reminder/reminder.service.ts:137-158 | every stored EMAIL_REQUESTED, REMINDER_DUE or EXPORT_REQUESTED event has its record, producers stopping anywhere |
| RecordSafety.FlaggedTasksHaveEvents | src/reminder/reminder.service.ts:160-162 | `reminderSent` implies a REMINDER_DUE event of that task |
| RecordSafety.JobsHaveRecords | src/infrastructure/processors/email.processor.ts:60-68 | no job in a queue meets "record not found" or an unsupported event type |
| RecordSafety.ExportIdNamesOneRecord | src/export/application/export.service.ts:67-85 | two export records never share an id, so failing an export touches one record |
| RetryOutcome.RetriesEndOneWay | src/infrastructure/processors/export.processor.ts:70-172 | in every run a job that ended is processed, without letter and with a settled record, or has exactly one letter of its last attempt, is unprocessed and has a failed record, if and only if a flag raised by five guards on its worker's calls is down |
| RetryCauses.RuleBrokenExactly | src/infrastructure/processors/export.processor.ts:70-172 | a job that ended, ended against that rule if and only if one of its worker's calls was a breaking one in the state it was made in, and after it came neither a stop nor a removal that left nothing contradictory |
| RetryCauses.ExactlyTheseBreak | src/infrastructure/processors/reminder.processor.ts:66-203 | from a state where nothing is wrong the rule gets broken by exactly the five calls: an error past the catch block, an unwritten letter, a stalled job given up, the final catch block of a processed event, a success after the letter |
| PipelineRuns.EveryCauseHappens | src/infrastructure/processors/webhook.processor.ts:102-151 | for each of the five a reachable state, the very call in it, and the rest of a run after which the job has ended against the rule |
| SmoothRetries.SmoothRunsEndByTheRule | src/infrastructure/processors/reminder.processor.ts:66-203 | a job ends by the rule in every run in which its checks and searches work, its marks are not reported as failed when made, its failed record and its letter are written, it is not given up, and its worker does not stop once the letter was due; body, record updates and stops before it may fail at will |
| RetryOutcome.RetriesTerminate | src/infrastructure/processors/webhook.processor.ts:102-151 | without crashes no job goes through more calls than its rank, which falls with the attempts left |
| RetryOutcome.OnlyEndedJobsAreStuck | src/infrastructure/processors/reminder.processor.ts:141-203 | a job has a next call if and only if it is neither done nor dead |
| Processors.ProcessedEventRepository.MarkProcessed | src/outbox/infrastructure/repositories/processed-event.repository.ts:26-31 | inserts the id once: a second insert throws and changes nothing |
| Processors.EmailDeliveryRepository.Update | src/infrastructure/processors/reminder.processor.ts:109-125 | sets the status of one delivery record and of no other |
| Processors.ExportRepository.Update | src/export/application/export.service.ts:140-173 | changes one export record, its status and, on completion, its file |
| Processors.ExportRepository.Fail | src/infrastructure/processors/export.processor.ts:135-138 | fails the record with the given export id |
| Processors.DeadLetterService.MoveToDeadLetterQueue | src/infrastructure/queues/dead-letter.service.ts:14-34 | one letter per job id: a second one is left out |
| Processors.MailProcessor.ProcessReminder | src/infrastructure/processors/reminder.processor.ts:40-203 | store by store and for every outcome of every call, what an attempt leaves: whether the mail went out, the record QUEUED, SENDING, SENT or FAILED, the mark, the letter with its attempts, and whether it throws; and that is the machine's run of these calls |
| Processors.MailProcessor.ProcessEmail | src/infrastructure/processors/email.processor.ts:34-160 | the same for an e-mail job, which has no check for processed events and no mark |
| Processors.WebhookProcessor.Process | src/infrastructure/processors/webhook.processor.ts:31-151 | the same for a webhook job; a job without workspace goes through the catch block |
| Processors.ExportProcessor.Process | src/infrastructure/processors/export.processor.ts:36-172 | the same for an export job; an attempt that returns leaves the record COMPLETED with the file generated, and the event processed |
| Processors.ExportProcessor.GenerateExport | src/export/application/export.service.ts:120-183 | the record is set to PROCESSING and, where the file was generated and stored, to COMPLETED with that file; and this is the machine's run of these calls |
| ExportFiles.RecordNamesItsFile | src/export/application/export.service.ts:163-173 | in every run a record names the file that its own job stored last, and a COMPLETED one names a file |
| Processors.AttemptReturns | src/infrastructure/processors/webhook.processor.ts:46-100 | an attempt of a guarded job returns without an error if and only if the check finds the event processed or every call of the try block goes well |
| Processors.AttemptIsPath | src/infrastructure/processors/reminder.processor.ts:40-203 | each call of an attempt that has an effect is the machine's next |
| Processors.MachineSeesAdvance | src/infrastructure/processors/export.processor.ts:70-98 | a step of the whole machine is, for its worker, the step the processors are proved against |
| Producers.ProducerService.HandleCron | src/reminder/reminder.service.ts:88-173 | the reminder loop flags exactly the tasks whose own checks and calls allow it, whatever fails for others, and is a path of the machine |
| Producers.ProducerService.Remind | src/reminder/reminder.service.ts:88-173 | one turn of that loop |
| Producers.ProducerService.RecordAndEmit | src/reminder/reminder.service.ts:137-158 | the record is stored before the event, and a stored event has its record |
| Producers.ProducerService.SendAccountMail | src/auth/application/command/register-user/register-user.handler.ts:55-75 | registering and password reset store the delivery record, then the EMAIL_REQUESTED event, and succeed if and only if both calls do |
| Producers.ProducerService.RequestExport | src/export/application/export.service.ts:64-105 | record and event are stored together or not at all |
| WebhookFanOut.AtMostOneSuccess | src/webhook/application/webhook-delivery.service.ts:30-50 | in every interleaving of deliveries, attempts and events a (webhook, event) pair has at most one SUCCESS record, and acceptances, heard or not, equal those no record tells of plus one if and only if recorded or about to be |
| WebhookFanOut.NeverSentAgain | src/webhook/application/webhook-delivery.service.ts:37-50 | once a success is settled nothing is sent to that webhook for that event in any continuation, and the success stays |
| WebhookFanOut.UndeliveredShrinks | src/webhook/application/webhook.service.ts:60-89 | the set of webhooks still to be delivered only shrinks |
| WebhookFanOut.FulfilledMeansAllDelivered | src/webhook/application/webhook.service.ts:72-89 | an attempt that returns without error leaves every webhook it found with a settled success, then and ever after |
| WebhookFanOut.MarkedMeansDelivered | src/infrastructure/processors/webhook.processor.ts:63-91 | an event is marked processed only after an attempt that fulfilled all its deliveries; in every continuation the mark stays, each of these webhooks has its settled success, and no request is made for the event to any webhook |
| WebhookFanOut.MarkIsOfLastAttempt | src/infrastructure/processors/webhook.processor.ts:63-91 | in every run the attempt behind a mark, made or due, is the event's last, and the webhooks it delivered to are exactly those it found |
| WebhookFanOut.MarkIsReached | src/infrastructure/processors/webhook.processor.ts:80-91 | a run in which one accepted request leads to the mark |
| WebhookFanOut.RoundFailsExactly | src/webhook/application/webhook.service.ts:72-88 | the attempt throws if and only if some delivery does not go through: its search fails, or it has no success and its record, request or update fails |
| WebhookFanOut.RoundRequests | src/webhook/application/webhook-delivery.service.ts:30-58 | for each webhook a request is made if and only if it has no success and its search and record work, and then its record is there |
| WebhookFanOut.RoundDelivers | src/webhook/application/webhook.service.ts:72-88 | without an error every webhook of the attempt has a success |
| WebhookFanOut.AcceptedUnheardThenAgain | src/webhook/application/webhook-delivery.service.ts:60-89 | a receiver that accepts without being heard gets the event again |
| WebhookFanOut.AcceptedTwice | src/webhook/application/webhook-delivery.service.ts:110-124 | an update to SUCCESS that takes effect but reports an error is overwritten with FAILED by the catch block, and the receiver accepts the event a second time |
| WebhookFanOut.DeliverIsOneRun | src/webhook/application/webhook-delivery.service.ts:21-128 | the outcome of one undisturbed `deliver` is the machine's run of its steps |
| WebhookFanOut.WebhookDeliveryRepository.FindSuccessfulDelivery | src/webhook/infrastructure/repositories/webhook-delivery.repository.ts:30-41 | finds a SUCCESS record of the pair if and only if there is one |
| WebhookFanOut.WebhookDeliveryRepository.Create | src/webhook/infrastructure/repositories/webhook-delivery.repository.ts:22-28 | adds one PENDING record and changes no other |
| WebhookFanOut.WebhookDeliveryRepository.Update | src/webhook/infrastructure/repositories/webhook-delivery.repository.ts:43-59 | changes the status of one record |
| WebhookFanOut.WebhookDeliveryService.Deliver | src/webhook/application/webhook-delivery.service.ts:21-128 | leaves the records and makes the requests of that outcome |
| WebhookFanOut.WebhookService.DeliverToWorkspace | src/webhook/application/webhook.service.ts:60-89 | leaves exactly the records and requests of its deliveries, and throws if and only if one of them does |
| SortSpec.BuildSort | src/task/infrastructure/persistence/task.repository.ts:254-284 | the loops that fill the sort objects compute the specified sort |
| SortSpec.SortMeansWhatItLists | src/task/infrastructure/persistence/task.repository.ts:254-284 | for distinct ordinary names, printing a sort and parsing it gives it back, and the store sorts by priority weight in the direction of priority, the other keys in order, then `_id` |
| SortSpec.LegacySort | src/task/infrastructure/persistence/task.repository.ts:267-283 | without a list the store sorts by the one key asked for, in its direction, then by `_id` |
| SortSpec.DirectionWord | src/task/infrastructure/persistence/task.repository.ts:259-266 | only `asc` is ascending |
| SortSpec.BuiltEndsTies | src/task/infrastructure/persistence/task.repository.ts:277-283 | every built sort orders by `_id` ascending, whatever was asked |
| SortSpec.IdDirectionHonoured | src/task/infrastructure/persistence/task.repository.ts:254-283 | the direction asked for `_id` is used if and only if it is ascending |
| TaskOrder.BuiltSortIsTotalOrder | src/task/infrastructure/persistence/task.repository.ts:295-335 | the comparison is a total order on tasks with different ids |
| TaskOrder.FirstDifferenceDecides | src/task/infrastructure/persistence/task.repository.ts:295-335 | a task comes before another exactly when the first key in which they differ says so, in its direction: absent values, then numbers, then text by its first difference |
| TaskOrder.SortIsUnique | src/task/infrastructure/persistence/task.repository.ts:286-335 | two sorted results of the same collection are equal |
| TaskOrder.SortExists | src/task/infrastructure/persistence/task.repository.ts:286-335 | a sorted result exists for every collection |
| TaskOrder.OffsetPagesCoverOnce | src/task/infrastructure/persistence/task.repository.ts:337-347 | pages 1 to ceil(total/limit) put together are the sorted collection |
| TaskOrder.PageSizes | src/task/infrastructure/persistence/task.repository.ts:426-435 | all pages but the last are full, the last is not empty, later ones are |
| CursorWalk.PageMeaning | src/task/infrastructure/persistence/task.repository.ts:400-424 | a page is the first `limit` matching ids, with a next cursor if and only if there are more |
| CursorWalk.OnPageOrLater | src/task/infrastructure/persistence/task.repository.ts:194-203 | a page holds exactly the matching ids up to its next cursor |
| CursorWalk.WalkAscends | src/task/infrastructure/persistence/task.repository.ts:400-424 | over any snapshots the ids of a whole walk strictly increase |
| CursorWalk.WalkReturnsMatches | src/task/infrastructure/persistence/task.repository.ts:194-203 | every id returned matched in the snapshot its page was read from |
| CursorWalk.WalkMissesNothing | src/task/infrastructure/persistence/task.repository.ts:337-347 | a task that matches in every snapshot is returned by a walk that ends |
| CursorWalk.WalkIsExactOnChangingData | README.md:761-763 | no duplicates and no gaps on changing data: tasks that match throughout come exactly once, the others at most once |
| CursorWalk.WalkOverFixedData | src/task/infrastructure/persistence/task.repository.ts:337-424 | on a fixed collection the walk is the sorted matching list, in exactly max(1, ceil(n/limit)) requests |
| TaskRepository.Repository.FindAll | src/task/infrastructure/persistence/task.repository.ts:125-448 | every answer's page is read from a state the collection was in and its total counted in a later one, the present ones unless cached |
| TaskRepository.Repository.CursorListing | src/task/infrastructure/persistence/task.repository.ts:337-424 | fetching one more, popping it and keeping the last id computes the page and cursor of the walk |
| TaskRepository.Repository.OffsetListing | src/task/infrastructure/persistence/task.repository.ts:337-441 | computes the page of the sorted filtered list, and the totals of the collection when it counts |
| TaskRepository.Repository.ClearCache | src/task/infrastructure/persistence/task.repository.ts:443-448 | deletes every tracked key, which is every key |
| TaskRepository.SortedIdsAscend | src/task/infrastructure/persistence/task.repository.ts:289-294 | sorting by `_id` is the ascending enumeration of the ids |
| TaskRepository.FetchedIds | src/task/infrastructure/persistence/task.repository.ts:194-203 | what the cursor branch fetches are exactly the matching ids past the cursor |
| ListingMeaning.ListedTasksQualify | src/task/infrastructure/persistence/task.repository.ts:194-252 | every task listed, cached or not, is undeleted, of the workspace, the asker's own unless an admin asks, and meets every filter given |
| ListingMeaning.OffsetPagesListExactly | src/task/infrastructure/persistence/task.repository.ts:194-252 | the offset pages together hold exactly those tasks, once each |
| ListingMeaning.CursorWalkListsExactly | src/task/infrastructure/persistence/task.repository.ts:194-252 | and the walk by cursor returns exactly their ids |
| ListingMeaning.ListedInOrder | src/task/infrastructure/persistence/task.repository.ts:254-335 | on a page nothing stands after a task that its key should put before it, ties by `_id` |
| CsvExport.FieldRoundTrip | src/export/application/export.service.ts:244-278 | an escaped field reads back as its text before any boundary |
| CsvExport.CsvRoundTrip | src/export/application/export.service.ts:231-297 | decoding an export gives the header and every row, whatever characters the cells hold |
| CsvExport.ColumnsMatchHeaders | src/export/application/export.service.ts:231-297 | the first record is the ten header names, and the record of a task has the texts of those attributes in the same places |
| CsvExport.LineByLine | src/export/application/export.service.ts:292-297 | the file is the header line and one line per task, separated by line feeds, with nothing at the end |
| CsvExport.CellsSay | src/export/application/export.service.ts:244-270 | a cell is a string itself, a number or truth value as printed, an object as encoded, and empty for anything else |
| CsvExport.SameTextSameCells | src/export/application/export.service.ts:244-297 | two exports are equal text if and only if all cells have equal texts |
| CsvExport.QuotedOnlyWhenNeeded | src/export/application/export.service.ts:244-278 | a field is quoted if and only if it holds a comma, a quote or a line break |
| Idempotency.IdempotencyService.Reserve | src/common/idempotency/idempotency.service.ts:29-64 | reserves a free key, or returns what is stored under it, or throws where a call fails, with or without having reserved |
| Idempotency.IdempotencyService.Get | src/common/idempotency/idempotency.service.ts:66-79 | returns what is stored |
| Idempotency.IdempotencyService.Complete | src/common/idempotency/idempotency.service.ts:81-97 | stores the completed record under the key |
| Idempotency.IdempotencyService.Delete | src/common/idempotency/idempotency.service.ts:99-103 | removes the key and no other |
| Idempotency.Intercept | src/common/idempotency/idempotency.interceptor.ts:19-103 | undisturbed: a free record runs the handler, answers its result and stores it, or removes the record when it fails; a taken one is answered from; records of other scopes and keys stay; a header that is missing, blank or longer than 255 is refused; and this is the machine's run, whatever the store calls do |
| Idempotency.ScopesAreApart | src/common/idempotency/idempotency.service.ts:25-27 | one key in two scopes is two records, and so are two keys in one scope |
| Idempotency.RequestsAreApart | src/common/idempotency/idempotency.interceptor.ts:106-113 | requests of different users or methods never share a record, nor do different routes or keys where routes hold no colon |
| Idempotency.FreshScopeRunsHandler | src/common/idempotency/idempotency.interceptor.ts:49-102 | in every interleaving with requests of other scopes and keys, a request whose own record is free runs its handler, is answered with its result and stores it |
| Idempotency.OwnStepsKeepOthers | src/common/idempotency/idempotency.service.ts:25-27 | and no step of it touches another record |
| Idempotency.SuccessesBoundedByLosses | src/common/idempotency/idempotency.interceptor.ts:49-102 | in every interleaving the handler succeeds under a key at most once more than the key's record was lost |
| Idempotency.AtMostOnceWithoutLoss | src/common/idempotency/idempotency.interceptor.ts:49-102 | without losses two successes, or two requests that may still succeed, are one request |
| Idempotency.ReplaysAreExecutions | src/common/idempotency/idempotency.interceptor.ts:56-76 | whatever is replayed is the status and body of a successful execution with the same key and fingerprint |
| Idempotency.ReplayIsTheOnlyExecution | src/common/idempotency/idempotency.interceptor.ts:56-76 | without losses it is the result of the key's only execution |
| Idempotency.CompletedAnswersEveryLaterRequest | src/common/idempotency/idempotency.interceptor.ts:56-76 | once a result is stored, in every continuation without a loss, whatever is interleaved, it stays, and a request that has not read the record is answered from it: same fingerprint replayed, other refused, no handler runs; a store error only where one of its own calls failed |
| Idempotency.CompletedStays | src/common/idempotency/idempotency.service.ts:81-97 | while a key has no loss its result stays |
| Idempotency.LossesRepeatTheHandler | src/common/idempotency/idempotency.interceptor.ts:80-102 | runs in which the record expires, or `complete` fails with or without effect, once, and two requests succeed |
| Idempotency.VanishedRecordRunsTwoHandlers | src/common/idempotency/idempotency.interceptor.ts:56-78 | a run in which a request loses the reservation, finds the record gone, and it and the next request both succeed |
| RefreshTokens.UserRepository.UpdateRefreshToken | src/users/infrastructure/repositories/user.repository.ts:125-146 | overwrites the three token fields of one user |
| RefreshTokens.UserRepository.ClearRefreshToken | src/users/infrastructure/repositories/user.repository.ts:96-112 | clears them |
| RefreshTokens.Refresh | src/auth/application/command/refresh-token/refresh-token.handler.ts:28-141 | check by check: a token that does not verify or meets no open session changes nothing, one of another family, id or hash closes the session, any other is replaced by one of its family |
| RefreshTokens.RefreshIsOneRun | src/auth/application/command/refresh-token/refresh-token.handler.ts:28-141 | the machine's read and write without anything in between leave what the handler does |
| RefreshTokens.OpenSession | src/auth/application/command/login/login.handler.ts:102-121 | a login starts a new family and replaces the session |
| RefreshTokens.ResetPassword | src/auth/application/command/reset-password/reset-password.handler.ts:36-56 | uses up the reset token, changes the password and closes the session |
| RefreshTokens.PassingMeansCurrent | src/auth/application/command/refresh-token/refresh-token.handler.ts:49-110 | an issued token passes the checks if and only if the session stands for it, whatever the hash comparison says |
| RefreshTokens.AtMostOneAcceptedToken | src/auth/application/command/refresh-token/refresh-token.handler.ts:49-110 | in every reachable state at most one token ever issued to a user would be accepted |
| RefreshTokens.SupersededTokensStayRefused | src/auth/application/command/refresh-token/refresh-token.handler.ts:61-110 | a token that is not current is refused in every continuation |
| RefreshTokens.RepeatedAcceptancesOverlap | src/auth/application/command/refresh-token/refresh-token.handler.ts:112-129 | a token is accepted twice only by refreshes that overlap |
| RefreshTokens.AtomicRefreshesAcceptOnce | src/auth/application/command/refresh-token/refresh-token.handler.ts:49-129 | with atomic refreshes every token is accepted at most once |
| RefreshTokens.OverlappingRefreshesBothAccept | src/auth/application/command/refresh-token/refresh-token.handler.ts:49-129 | two overlapping refreshes with one token both succeed |
| RefreshTokens.OneTokenAcceptedTwice | src/auth/application/command/refresh-token/refresh-token.handler.ts:49-129 | and a run from the start reaches that: one token accepted twice |
| RefreshTokens.ReplayClosesSession | src/auth/application/command/refresh-token/refresh-token.handler.ts:61-110 | replaying a superseded token closes an open session |
| RefreshTokens.ClosingIsFinalUnlessInFlight | src/auth/application/command/logout/logout.handler.ts:18-19 | a closed session opens again without a login if and only if a refresh was between its checks and its write |
| CategoryVersions.NoLostUpdate | src/categories/infrastructure/persistence/category.repository.ts:101-128 | a stored category is the created one with exactly the successful updates applied in version order, however stale the reads |
| CategoryVersions.VersionsAreConsumedOnce | src/categories/infrastructure/persistence/category.repository.ts:107-119 | each version of a category is consumed at most once, in order |
| CategoryVersions.OneSuccessPerVersion | src/categories/application/commands/update-category/update-category.handler.ts:16-45 | two clients that name the same version of a category never both succeed |
| CategoryVersions.SuccessAppliesToNamedVersion | src/categories/application/commands/update-category/update-category.handler.ts:25-45 | a successful client updated exactly the version it named, and is answered with the state right after |
| CategoryVersions.LastWriteStands | src/categories/infrastructure/persistence/category.repository.ts:107-119 | a field written by a successful update keeps that value until a later successful update writes it |
| CategoryVersions.AnswersMean | src/categories/infrastructure/persistence/category.repository.ts:101-128 | at its write a client succeeds exactly if the owner's category is at the version named and no other of theirs has the new name, and what is then stored, field by field |
| CategoryVersions.NamesStayUnique | src/categories/infrastructure/persistence/category.repository.ts:23-29 | in every interleaving no owner has two categories of one name |
| CategoryVersions.OnlyOwnersUpdate | src/categories/infrastructure/persistence/category.repository.ts:107-119 | every update in the log was asked for by the category's owner, who stays its owner |
| CategoryCache.KeysAreDistinct | src/categories/infrastructure/persistence/category.repository.ts:32-76 | different queries have different cache keys, whatever text is given as an id |
| CategoryCache.QueriesMean | src/categories/infrastructure/persistence/category.repository.ts:31-99 | the list is the owner's categories, each once and in order; one is found by its id if it is the asker's own, or, by role, an admin asks; text that is no id is an error |
| CategoryCache.InsertMeans | src/categories/infrastructure/persistence/category.repository.ts:23-29 | an insert adds the category unless its id or its owner's name is taken |
| CategoryCache.RemoveMeans | src/categories/infrastructure/persistence/category.repository.ts:130-141 | a removal takes away exactly the owner's category of that id |
| CategoryCache.HistoryKeepsIds | src/categories/infrastructure/persistence/category.repository.ts:13-149 | over every history an id names one category |
| CategoryCache.MongooseCategoryRepository.FindAll | src/categories/infrastructure/persistence/category.repository.ts:31-46 | answers as the uncached query would |
| CategoryCache.MongooseCategoryRepository.FindById | src/categories/infrastructure/persistence/category.repository.ts:48-70 | answers as the uncached query would |
| CategoryCache.MongooseCategoryRepository.FindByIdForRole | src/categories/infrastructure/persistence/category.repository.ts:72-99 | answers as the uncached query would |
| CategoryCache.MongooseCategoryRepository.Create | src/categories/infrastructure/persistence/category.repository.ts:23-29 | inserts and clears; a violated unique index changes nothing |
| CategoryCache.MongooseCategoryRepository.Update | src/categories/infrastructure/persistence/category.repository.ts:101-128 | the compare-and-set on owner and version, then an empty cache |
| CategoryCache.MongooseCategoryRepository.Delete | src/categories/infrastructure/persistence/category.repository.ts:130-141 | removes the owner's document only |
| CategoryCache.MongooseCategoryRepository.ClearCache | src/categories/infrastructure/persistence/category.repository.ts:143-149 | the loop over tracked keys empties the cache |
| CategoryCache.MongooseCategoryRepository.Serve | src/categories/infrastructure/persistence/category.repository.ts:13-149 | over every history of operations and expiries the repository answers and stores exactly as one without a cache |
| CategoryCache.UpdateIsCompareAndSet | src/categories/infrastructure/persistence/category.repository.ts:107-124 | the update in the collection is the compare-and-set of the concurrency model |
| CategoryCache.UpdateCategoryHandler.Execute | src/categories/application/commands/update-category/update-category.handler.ts:16-45 | undisturbed, the handler succeeds if and only if the owner's category is at the named version and the name is free, and answers the fields it then has |
| TaskVersions.NoLostUpdate | src/task/infrastructure/persistence/task.repository.ts:450-522 | a stored task is the created one with every committed change performed in order, over all interleavings of all writers |
| TaskVersions.EveryCommentIsKept | src/task/infrastructure/persistence/task.repository.ts:504-522 | a task's comments are those it was created with and every committed one, each once, in order |
| TaskVersions.SavesConsumeVersions | src/task/application/commands/update-task/update-task.handler.ts:114-134 | a save commits against exactly the version it loaded, and no version is saved against twice |
| TaskVersions.PatchAppliesToNamedVersion | src/task/application/commands/update-task/update-task.handler.ts:76-131 | a successful PATCH applied to precisely the version named in If-Match (section 13.1.1 of RFC 9110), or changed nothing of it |
| TaskVersions.SavePerforms | src/task/Schema/task.schema.ts:45 | saving only the changed fields onto a task of the same version performs the change |
| TaskVersions.AnswersMean | src/task/application/commands/update-task/update-task.handler.ts:76-131 | when a writer is answered NOT FOUND, PRECONDITION FAILED, an error or SUCCESS, at its load and at its save |
| TaskVersions.ReminderStaysSet | src/reminder/reminder.service.ts:160-162 | the reminder flag is set exactly when a reminder set it, and no save takes it back |
| TaskVersions.CommitsDoWhatWasAsked | src/task/infrastructure/persistence/task.repository.ts:450-522 | every committed change did what was asked and nothing else: fields set, comments and attachments added at the end, exactly the named attachment removed, assignees replaced, the deletion time set, one version on |
| TaskVersions.DeletedTasksStayAsTheyWere | src/task/infrastructure/persistence/task.repository.ts:73-86 | no PATCH and no deletion is committed to a deleted task, in any interleaving, and only an attachment that is there is removed |
| TaskVersions.DifferencesCoverTheUpdate | src/task/application/commands/update-task/update-task.handler.ts:91-104 | a change is recorded exactly for a field sent with another value than it had, or that is compared by identity; no field the update changes is missing, and each record has what the field had and got |
| TaskVersions.UpdateTaskHandler.Compare | src/task/application/commands/update-task/update-task.handler.ts:91-104 | the loop computes those changes |
| TaskVersions.UpdateTaskHandler.Execute | src/task/application/commands/update-task/update-task.handler.ts:54-194 | at the version named, every field sent with a value has it in the store and in the answer, all else is as before, and the version rises by one exactly if a field changed; otherwise it is refused and nothing changes; the activity is written exactly when the transaction took effect and there are differences; and this is the machine's load and save |
| RateLimits.LimitPerLifetime | src/auth/services/user-rate-limit.service.ts:23-37 | a lifetime of the key allows at most 100 requests |
| RateLimits.LimitPerInterval | src/auth/services/user-rate-limit.service.ts:23-37 | any half-open 900 s interval allows at most 199 requests |
| RateLimits.LimitPerIntervalIsReached | src/auth/services/user-rate-limit.service.ts:23-37 | 199 are reached |
| RateLimits.UnendingArises | src/auth/services/user-rate-limit.service.ts:30-34 | a key comes to be without a time to live for good if and only if the request that created it stops before its EXPIRE |
| RateLimits.UnendingStays | src/auth/services/user-rate-limit.service.ts:30-34 | and then it stays and counts on in every continuation |
| RateLimits.StuckForever | src/auth/services/user-rate-limit.service.ts:30-36 | at the limit it refuses every request for ever |
| RateLimits.StuckIsReached | src/auth/services/user-rate-limit.service.ts:30-36 | a run comes to that |
| RateLimits.DeadlineFrees | src/auth/services/user-rate-limit.service.ts:30-36 | a key ends if and only if it has a deadline that has passed, and then the next request is allowed |
| RateLimits.FailuresPerLifetime | src/auth/application/command/login/login.handler.ts:34-82 | with at most k logins past the check at a time, at most 4 + k failures are recorded per lifetime |
| RateLimits.FailuresPerLifetimeAreReached | src/auth/services/brute-force.service.ts:25-43 | 4 + k are reached |
| RateLimits.OnlyTheseFree | src/auth/services/brute-force.service.ts:25-43 | a blocked address is free after a step if and only if a login in flight succeeds or time reaches the deadline of the key |
| RateLimits.BlockedUntilTheKeyEnds | src/auth/services/brute-force.service.ts:25-29 | until then, over any time, no login passes the check, and only those in flight can still record |
| RateLimits.UserRateLimitService.CheckLimit | src/auth/services/user-rate-limit.service.ts:23-37 | counts in the present lifetime, which runs one window from its first request |
| RateLimits.BruteForceService.IsBlocked | src/auth/services/brute-force.service.ts:25-29 | blocked if and only if five failures are recorded |
| RateLimits.BruteForceService.RecordFailure | src/auth/services/brute-force.service.ts:31-39 | counts one failure; the first sets the window |
| Membership.OneMembership | src/workspace/infrastructure/persistence/repositories/membership.repository.ts:23-53 | a user has at most one membership in a workspace |
| Membership.OneOwner | src/workspace/application/commands/create-workspace/create-workspace.handler.ts:40-52 | a workspace has at most one OWNER, and it is its creator |
| Membership.OwnerComesFirst | src/workspace/application/commands/add-member/add-member.handler.ts:38-46 | a workspace with a member or an invitation has its OWNER |
| Membership.AcceptedMeansJoined | src/workspace/application/commands/accept-invitation/accept-invitation.handler.ts:86-121 | ACCEPTED implies the invited user is a member with the invited role through this invitation; who joined through it left it not PENDING |
| Membership.LeavesPendingOnce | src/workspace/infrastructure/persistence/repositories/invitation.repository.ts:118-154 | an invitation leaves PENDING at most once |
| Membership.AnsweredStays | src/workspace/infrastructure/persistence/repositories/invitation.repository.ts:118-154 | and its status then stays in every continuation |
| Membership.OnlyTheseStart | src/workspace/application/commands/add-member/add-member.handler.ts:25-46 | a handler passes its checks only for those who may: members add and invite others who are none, not as OWNER, and the invited user answers a pending invitation in time |
| Membership.WritesMean | src/workspace/application/commands/decline-invitation/decline-invitation.handler.ts:49-61 | what each write makes of its request |
| Membership.AcceptanceMarksIfPending | src/workspace/application/commands/accept-invitation/accept-invitation.handler.ts:89-100 | a committed acceptance marks its invitation if and only if no decline came in between |
| Membership.DeclinedYetJoined | src/workspace/application/commands/decline-invitation/decline-invitation.handler.ts:49-61 | a decline between the checks and the transaction of an acceptance leaves a member with a DECLINED invitation |
| Membership.MembershipRepository.Create | src/workspace/infrastructure/persistence/repositories/membership.repository.ts:23-53 | inserts if and only if the pair is new |
| Membership.InvitationRepository.MarkAccepted | src/workspace/infrastructure/persistence/repositories/invitation.repository.ts:118-138 | changes a PENDING invitation only |
| Membership.InvitationRepository.MarkDeclined | src/workspace/infrastructure/persistence/repositories/invitation.repository.ts:140-154 | changes a PENDING invitation only |
| Membership.AcceptInvitationHandler.Execute | src/workspace/application/commands/accept-invitation/accept-invitation.handler.ts:44-121 | undisturbed, it succeeds if and only if the invited user answers a pending, unexpired invitation without being a member, and then both writes are there |
| ETags.IfMatchReadsBack | src/common/http/parse-if-match.ts:3-19 | a printed version tag, weak or strong, with space around it, names its version |
| ETags.IfNoneMatchReadsBack | src/common/http/parse-if-none-match.ts:1-15 | a list of printed tags names exactly their versions, in order |

## Left out

- Controllers, validation, Swagger, modules, health, metrics, logging, tracing, websockets, mail templates and graceful shutdown: wiring without a hard property.
- Internals of Mongo, Redis, the job queue, JWT, bcrypt and HMAC: maps with atomic calls; ids and tokens are fresh, and about bcrypt only that a token matches its own hash.
- JSON and XLSX exports, file access and download links: library calls. A finished export's path, name and expiry are one value, its file.
- Access policies, feature flags, settings, audit records, statistics and problem details: tables and merges that would add only easy members.
- Audit and activity records, except that a task's activity is written with its save.
- The worker of the dead-letter queue and the removal of its finished letters: a letter, once added, is counted for good.
- Other sources of events: those that need a record come only from the producers modelled, as in the code; all others are created freely.
- Time: the queue's backoff between attempts of a job is not modelled; a waiting job may be taken at any time.
- Concurrent dispatchers compute the delay of a failed event from the attempts they read with the batch; the spacing of claims is stated for one dispatcher at a time.
- Liveness of the pipeline: what is proved is safety in all runs, and termination of a job's calls without crashes.
- Two workers active on one job at a time, after a lock is lost: one worker per job id.
- The transaction driver's own retries: a transaction is one step that applies, fails, or fails although it applied.
- Array-valued sort fields, integer-like property names and the store's errors on odd sort fields.
- Coherence of the task list's cache across writers: assignment does not clear it; listings are shown to be of a state the collection was in.
- Caches shared by several processes, fills that race with writes, and the tracked key sets of the membership and invitation repositories: their reads are modelled as direct, which positive membership reads may be, since memberships are never removed, and a stale list of pending invitations is allowed to say anything.
- Aliasing and serialisation of cached documents: values.
- Trimming and validators of category fields.
- Reusing an e-mail address for another user, and case folding of addresses: an invitation names the invited user.
- `updateStatus` of the invitation repository and `update`, `delete` of the task repository: nothing calls them.
- SortSpec.SortMeansWhatItLists: leaves out names with a separator in them, `_id` and `priorityWeight`, which the code does not take as ordinary names; what becomes of `_id` is in `SortSpec.BuiltEndsTies`.
- ETags: text that is not a plain number, and versions beyond 2^53.
- WebhookFanOut.WebhookService.DeliverToWorkspace: runs its deliveries one after another; all interleavings are covered by the machine.
- Processors.MailProcessor.ProcessReminder: the bodies' own calls to the mail service, and payload checks, are one step that succeeds or throws.
