# A verified model of Tasqueue

Tasqueue is a distributed job queue: clients enqueue jobs, consumers take them off a broker's queues, workers run
their handlers, and everything that is known about a job lives in a results store. These Dafny modules model how
these parts interleave, one store or broker call at a time, and prove what holds in every run.

`dafny verify dfyconfig.toml` checks everything.

## The modules

- `Jobs`: jobs as finite trees, their options and metadata, and the schedule branch of enqueueing.
- `Protocol`: the job lifecycle as a step system. A world is a results store (one row per ID: record, saved result,
  success and failed index), the broker's entries, and any number of threads with a program counter. Each store or
  broker call is a step of its own, may fail, and may take effect although it reports an error; a poll of the sorted
  set may stop at its push or after it. A row also carries a history that no step is guarded by, except that only a
  handler that was started can save. A *run* is a sequence of possible steps within the two assumptions below.
- `Invariant`, `Preservation`: what every step keeps, with the frame argument that reduces each step to the thread,
  the broker entry and the rows it touches.
- `Lifecycle`, `Timing`, `Recurrence`, `Termination`, `Progress`: the results about all runs.
- `Runs`, `DoubleMoves`: what separates runs from possible sequences of steps, and what is lost without that.
- `Polling`, `Walks`, `Server`: group and chain answers recomputed naively, and how long a walk along a chain can
  get; and the server's own methods as imperative code over the shared store, with arbitrary steps of other threads and other pollers between any two calls. A server
  that is `reliable` makes no failing call itself; other threads may.
- `ChainBuilder`: `NewChain` over mutable job objects.
- `MemoryBroker`: one queue of the in-memory broker with its consumer and workers, as a step system.
- `Pagination`, `ScheduledMover`, `NameList`, `MemoryResults`: paging, the Redis scheduled-job mover with float64
  scores, the NATS store's newline-separated name list, and the flat key space of the results stores.

## Assumptions

- Runs: what a poll has pushed from the sorted set onto a queue it also removes (`Protocol.MovesOnce`). The Redis broker
  does that in two calls; if the second fails, the process stops before it, or another poller comes between, a job
  with an ETA is live twice. `DoubleMoves.OneCopyIffMovedOnce` shows that this is exactly when it is, and the
  lemmas beside it what is then lost.
- Runs: IDs settle on fresh values: no two enqueues use the same one (`Protocol.Fresh`; `Lifecycle.ReusedIdIsNotForever`
  shows what happens otherwise). They do not start with `job:msg:`, `group:msg:` or `chain:msg:`, which
  `MemoryResults.ResultHitsMessage` shows to be exactly what the shared key space needs.
- Every store and broker call takes effect at most once. A Redis or NATS client that sends a call again after a network
  error breaks that, as a poll that stops after its push does for the sorted set.
- Serialisation is a faithful deep copy, so a stored or queued message is a value.
- Theorems about chains are about jobs that carry neither OnSuccess jobs nor a schedule (`Polling.ChainInputs`):
  `NewChain` appends the link at the end of a list of which `GetChain` follows the first entry.
- Scheduled recurrence takes the cron library as a function `next` with later, non-zero answers.

## Where the code and its documentation differ

- jobs.go:58-59 promises nil as the previous result when a job saves none. server.go:442-445 returns an error
  instead, and the job stays "processing" forever (`Lifecycle.MissingResultSticks`).
- README.md:427 and server.go:239-240 say that deleting a job removes its saved metadata. The results stores drop the
  saved result and the index entries; the record under `job:msg:` stays (`MemoryResults.Results.DeleteJob`).
- chains.go:16-17 calls `JobID` the current job; `GetChain` never advances it, so every poll of a running chain
  appends the finished jobs to `PrevJobs` again. `Server.Server.GetChain` therefore says what one poll appends.
- results/nats-js/results.go:114-122 splits the name list by character where its other methods split by line
  (`NameList.SetTaskBreaksNames`, and exactly when it does no harm: `NameList.SetTaskKeepsNames`).
- results/in-memory/results.go:79-82 lists n empty strings before the n IDs.

## Model

| member | source | states |
|---|---|---|
| Preservation.ClientBeginKeeps | jobs.go:125-164 | starting an enqueue, with the schedule branch, keeps the lifecycle invariant and takes nothing back |
| Preservation.WriteKeeps | jobs.go:166-170 | so does the "queued" record, whether it succeeds, fails or takes effect with an error |
| Preservation.PushKeeps | jobs.go:172-185 | so does the first push, after which the client is done or the worker goes on with its next follower |
| Preservation.ReceiveKeeps | server.go:292-295 | so does a consumer taking a message off its queue, even if the answer of the call is lost and the message with it |
| Preservation.HandoffKeeps | server.go:308-314 | so does handing it to a worker over the unbuffered channel |
| Preservation.WorkKeeps | server.go:320-460 | so does every act of a worker on its own message: dropping it, "processing", the handler's end, "retrying", giving up on a follower, the index and the final record |
| Preservation.RequeueKeeps | server.go:485-488 | so does a retry's push |
| Preservation.KidBeginKeeps | server.go:415-453 | so does starting to enqueue a follower, which after a success reads the saved result |
| Preservation.MoveKeeps | brokers/redis/broker.go:218-239 | so does a poll that moves a due message from the sorted set to its queue, or stops at its push |
| Preservation.SavedKeeps | jobs.go:100-103 | so do saving a result, at any time after the first handler started, and deleting a job's results |
| Preservation.StepKeeps | server.go:299-347 | every step of a run, of any thread, keeps the invariant, and no record, push, verdict or list of followers is taken back |
| Preservation.RunKeeps | server.go:256-289 | hence so does every run of any number of clients, consumers and workers |
| Runs.RunsMoveOnce | brokers/redis/broker.go:231-239 | a run is a possible sequence of steps with fresh IDs in which no poll stops after its push |
| DoubleMoves.StepKeepsOneCopy | brokers/redis/broker.go:231-239 | from any state of a run, a step leaves every ID with one live copy if and only if it is not a poll that stops after its push |
| DoubleMoves.OneCopyIffMovedOnce | brokers/redis/broker.go:231-239 | with fresh IDs, every ID has one live copy all the way through if and only if no poll stops after its push |
| DoubleMoves.FinalIsOverwritten | server.go:335-340 | from any state of a run with a message without OnSuccess jobs in the sorted set, such a poll can be continued until a record that said successful says processing again |
| DoubleMoves.RunsWithoutBound | brokers/redis/broker.go:231-239 | from any such state, with such polls that job can run any number of times more, however few retries it has |
| DoubleMoves.NextRunTwice | server.go:437-454 | from any state of a run with a scheduled job in the sorted set, with such polls the job gets two next runs |
| DoubleMoves.TimedJobIsLoaded | jobs.go:172-178 | every job with an ETA or a schedule, and no chosen ID, gets into such a state |
| Lifecycle.OneLiveCopy | server.go:299-347 | in every run an ID has at most one live copy across queues, sorted set, consumers, workers and clients, whichever other calls fail |
| Lifecycle.LiveMatchesRecord | server.go:534-630 | the record of a live copy has the status that fits the copy's place; for a queued copy it is that very message |
| Lifecycle.FinalIsForever | server.go:570-612 | in a run a record that says successful or failed is never changed again, by any thread |
| Lifecycle.LostIsForever | server.go:321-345 | a message dropped after an error has no live copy ever again, and its record stays as it was |
| Lifecycle.MissingResultSticks | server.go:437-445 | a successful job with OnSuccess jobs but no saved result can only be given up, and then stays "processing" forever |
| Progress.MissingResultHappens | server.go:437-445 | every job with OnSuccess jobs gets there if its handler returns without saving |
| Lifecycle.ReusedIdIsNotForever | jobs.go:64-76 | a client that reuses the ID of a finished job takes its record back to "queued" |
| Lifecycle.CountersCount | server.go:335-342 | the counters of runs, erred runs and first pushes count the steps of the run |
| Lifecycle.RetriesAreCounted | server.go:400-429 | Retried never exceeds MaxRetry in any queued or held message, and a running job is on its (Retried+1)-th handler run |
| Lifecycle.LastErrorIsLast | server.go:400-402 | the errors kept beside a row end in the error of the job's last erred run in the steps of the run, and are empty if none erred |
| Lifecycle.RecordIsExact | server.go:534-630 | in every run a record is the job as enqueued with the client's options; outside a worker's hands its PrevErr is the error of the job's last erred run, or "" if none erred, and Retried is the number of erred runs, less the last one of a failed job |
| Lifecycle.QueuedMessageIsExact | server.go:465-488 | a queued message, pushed first or again, is the job as enqueued with status "queued", the erred runs counted and the last error |
| Lifecycle.HeldMessageCarriesLastError | server.go:400-402 | so does a message in a consumer's or worker's hand carry the last error |
| Lifecycle.StatusCallsWrite | server.go:534-630 | each status call that goes well writes its own status |
| Lifecycle.DeleteClears | results/in-memory/results.go:43-51 | deleting a job's results leaves neither a saved result nor an index entry, the record as it was and all other jobs alone |
| Lifecycle.CancellationIsSuccess | server.go:385-429 | an error or a deadline leads to a retry, without wrapping the counter, until none is left; a return or a cancellation counts as success |
| Lifecycle.FailedIffAllRunsErred | server.go:400-429 | a job that no error dropped is failed, or about to be recorded so, if and only if exactly MaxRetry+1 of its runs erred |
| Lifecycle.IndexesAgree | server.go:570-612 | the success and failed indexes are disjoint, and each is exactly the jobs of that final status plus those between the two writes |
| Lifecycle.CleanRunsLoseNothing | server.go:299-463 | without errors every accepted job has a final record or exactly one live copy |
| Progress.QuietMeansDone | server.go:299-463 | when no step is left that goes well and some thread is idle, the broker is empty and every job is final, dropped, or waits for a missing result |
| Progress.LosingStepIsItsOwn | server.go:321-345 | a job is only dropped by a step on its own live copy that does not go well |
| Progress.NextStepIsEnabled | server.go:299-463 | any other thread with a message in hand has a next step |
| Lifecycle.SuccessMeansChildrenPushed | server.go:436-457 | even if calls fail, a successful record lists, in order and without leftovers of earlier runs, one ID per OnSuccess job, each recorded and pushed exactly once |
| Lifecycle.FailureMeansChildrenPushed | server.go:414-428 | a failed record implies the same of every OnError job |
| Lifecycle.FollowerCreatedOnce | server.go:437-453 | no follower is created twice |
| Lifecycle.FollowerComesAfter | server.go:400-453 | an OnSuccess job is created only after the parent's one run without error, an OnError job only after MaxRetry+1 erred runs |
| Lifecycle.SavedIsLastSaved | jobs.go:100-103 | what is stored under an ID is what was saved there last, or nothing since a deletion |
| Lifecycle.PrevResultIsParents | server.go:442-445 | the result passed to an OnSuccess job is what was saved last under the parent's ID at the step that enqueued it; OnError jobs get none |
| Lifecycle.PrevResultIsStillSaved | server.go:442-445 | and it is what is saved there now, unless that was changed after the parent's last run |
| Invariant.PrepareIsPreparedFrom | jobs.go:136-160 | a schedule changes only the ETA and appends one next run to the OnSuccess jobs |
| Invariant.PrepareMeans | jobs.go:136-160 | enqueueing refuses exactly a schedule that does not parse; otherwise a schedule gives the job an ETA, if it has none, and one more OnSuccess job: the same task, payload and options at the activation after that, on the job's own queue, or on "tasqueue:tasks" if it names none |
| Timing.RunsOnlyOnceDue | jobs.go:172-185 | in a run a job with an ETA runs its handler only after the one time the broker moved it out of the sorted set; retries and jobs without an ETA never enter it |
| Timing.StepTimes | server.go:485-488 | every step keeps the count of moves in step with the job's ETA, pushes and place |
| Recurrence.RunKeepsTimed | jobs.go:136-160 | in every run each stored scheduled job has an ETA and its own next run, one activation later, as its last OnSuccess job |
| Recurrence.NextRunIsNext | jobs.go:149-159 | the next run is the same task and payload with the same options but its ETA, which is the next activation, and its queue, which is the job's own or "tasqueue:tasks" if it names none; nothing else that followed the job follows it |
| Recurrence.SuccessHasOneNextRun | server.go:437-454 | in a run each success has exactly one next run, recorded and pushed once, listed last |
| Recurrence.NoNextRunWithoutSuccess | server.go:466-491 | a follower on a job's own schedule, which is not among its OnError jobs, exists only after a run without error: retries create none, and a permanent failure ends the series |
| Recurrence.RunIsDueAtActivation | jobs.go:145-159 | run k is due at the k-th activation after the first ETA, and does the first run's work on the first run's queue, in its options, its record and the message that is pushed |
| Recurrence.ExplicitIdOverwritesItself | server.go:440-448 | the next run of a scheduled job with a chosen ID can only take that ID, and takes the record of the job in hand from processing back to queued |
| Termination.StepPays | server.go:299-491 | a potential over the live messages of all jobs, or of one job tree, falls at every step of a run on them that is not the environment's; only these jobs have to be unscheduled |
| Termination.RunIsPaidFor | server.go:299-491 | in every run the steps taken on these jobs and the potential left are at most what their enqueues granted |
| Termination.StepsAreBounded | server.go:299-491 | hence in a run an unscheduled job tree causes a bounded number of steps whatever else is enqueued, and so do all jobs if none is scheduled |
| Termination.CostIsRunBound | server.go:400-455 | what a job tree may cost in handler runs is (MaxRetry+1) plus the larger of the sums over OnSuccess and over OnError |
| Termination.RunsInTreeAreBounded | server.go:400-455 | in a run an unscheduled job tree causes at most that many handler runs, whichever calls fail and whatever else is enqueued |
| Polling.GrowKeepsFinal | server.go:570-612 | a job that has a record keeps one, and a final record stays the same |
| Polling.SummaryBetween | groups.go:113-115 | a group status from statuses looked up one by one lies between the naive status before and after the lookups |
| Polling.NaiveGroupMeans | groups.go:125-137 | that naive status is failed if and only if some job's record says failed, successful if and only if all say successful, and processing otherwise |
| Polling.NaiveGroupStays | groups.go:87-91 | a final naive group status never changes |
| Polling.CredibleStays | groups.go:97-115 | cached final statuses in a stored group message stay right |
| Polling.LinkLeadsOn | chains.go:119-125 | every first OnSuccess ID leads to an existing, later-created job |
| Polling.NaiveChainGrows | chains.go:101-127 | the done prefix of a chain only grows and a final answer never changes |
| Polling.PathIsWalked | chains.go:101-127 | the naive answer is the path walked so far followed by the answer for the job it stands at |
| Polling.NaiveChainStandsAt | chains.go:101-127 | the naive answer comes from a job reached over successful jobs only: failed if it failed, successful if it succeeded and is the last, processing if it has no final status |
| Polling.WalkIsShort | chains.go:115-125 | if the line of first OnSuccess jobs ends in a job without a schedule, no walk is longer than that line |
| Walks.WalksOfAnyLength | chains.go:115-125 | if it ends in a job with a schedule, and no job asks for an ID, runs make the walk as long as one likes |
| Walks.BoundedIffEndsUnscheduled | chains.go:101-127 | so GetChain's lookups are bounded over all runs if and only if that line ends in a job without a schedule |
| Polling.LinkFollowsChain | chains.go:119-125 | the link followed leads to the chain's next job if the job had no OnSuccess jobs of its own, and to the first of those otherwise |
| Polling.NaiveChainMeans | chains.go:101-127 | successful means all n jobs are, failed means a prefix is and the next job failed, processing means a prefix is and the next job exists undecided |
| Polling.NumberIsJob | chains.go:46-50 | in every run number i of a chain is the i-th job of its list |
| Polling.NumberIsUnique | server.go:437-454 | and it is created at most once |
| Polling.SuccessorGetsResult | server.go:442-448 | only after its predecessor's run succeeded, with the bytes last saved under the predecessor's ID at that step |
| Polling.AcceptedArePrefix | server.go:437-454 | the accepted jobs of a chain are a prefix of it |
| Server.Server.constructor | server.go:256-263 | any system with nothing enqueued is a valid start, and the server's world is always reached by a run from one |
| Server.Server.StatusStarted | server.go:534-550 | the thread goes on to the push, or gives up after an error |
| Server.Server.EnqueueMessage | jobs.go:209-228 | an accepted message has its record and exactly one first push |
| Server.Server.Enqueue | jobs.go:125-186 | an accepted job is new, recorded and pushed exactly as prepared; it is refused only for a schedule that does not parse, a failing call or a reused ID |
| Server.Server.StatusProcessing | server.go:552-568 | the record says "processing" while the handler runs |
| Server.Server.DropMessage | server.go:320-333 | an unknown message is dropped for good and its record stays as it was |
| Server.Server.EnqueueFollower | server.go:417-454 | one follower is pushed and, after a success, its ID appended to the message; it fails if no result is saved, and otherwise only for its schedule or a failing call |
| Server.Server.EnqueueFollowers | server.go:415-455 | all followers are recorded and pushed once, in order, and after a success listed in the message, where nothing else changes |
| Server.Server.StatusFinal | server.go:570-612 | the final record is exactly the message with status successful or failed, and the indexes agree with it |
| Server.Server.RetryJob | server.go:465-491 | the "retrying" record is written for exactly this message, and then this message is pushed again |
| Server.Server.ExecJob | server.go:349-463 | without an error in between, a success ends in a record equal to the message but for status successful and one ID per OnSuccess job; the last permitted error in one equal but for status failed and PrevErr, which is the handler's error or "context deadline exceeded"; any other error in a push of the message with that PrevErr and Retried one higher; with calls that work only a missing result prevents that |
| Server.Server.FinishRun | server.go:385-430 | what the worker goes on with is settled by how the handler ended: the retry with the error and one more retry counted, the OnError jobs with the error, or the OnSuccess jobs with the message as it was |
| Server.Server.Process | server.go:299-347 | one turn of the worker loop does exactly that for the message it received, or drops it |
| Server.Server.GetGroupStatus | groups.go:125-137 | failed if and only if some job is, successful if and only if all are, else processing, in any map order |
| Server.Server.EnqueueGroup | groups.go:66-80 | the stored message, which replaces any other under that ID, lists one accepted job per job of the group, as queued |
| Server.Server.LookUp | groups.go:97-111 | a cached final status is kept, any other is looked up; the outcome was the job's own status at some moment of the poll, agrees with its record afterwards if final, and is the earlier one if that was final |
| Server.Server.GetGroup | groups.go:82-123 | while other pollers overwrite the message and jobs move on: unless a final answer is stored already, each job's status in the answer was its own at some moment of the poll, and the answer is failed if and only if one of these is and successful if and only if all are; in any case failed means some job's record says so at the end, successful that all do, and a job failed at the start forces failed; it is what is stored then |
| Server.Server.EnqueueChain | chains.go:69-83 | the stored message, which replaces any other under that ID, names the accepted first job, which carries the whole chain, as prepared for its schedule if it has one |
| Server.Server.WalkOn | chains.go:95-127 | the walk's answer is the naive one at some moment of the poll, so processing means that the next job had no final status then; it answers within as many lookups as the line of first OnSuccess jobs is long, if that ends without a schedule |
| Server.Server.GetChain | chains.go:85-133 | one poll appends exactly the done prefix of the chain, with a failed job last, in chain order; status and prefix are the naive answer at some moment of the poll, so an answer that is not final is processing; and it answers within that many lookups |
| Server.BetweenSummary | groups.go:113-115 | what a poll writes back is right about the store at that moment |
| Server.WalkEnds | chains.go:101-118 | where the walk stops, its answer is the naive one |
| ChainBuilder.NewChain | chains.go:41-53 | refuses fewer than two jobs; else each job's OnSuccess list gets the next job at its end and the first job unrolls to the jobs in order |
| ChainBuilder.ChainUnrolls | chains.go:46-50 | linked jobs unroll to the nested job that is sent |
| MemoryBroker.PendingMirrors | brokers/in-memory/broker.go:40-73 | with any number of producers the pending list is as long as the channel plus those between append and send plus one between receive and pop, so the pop never fails and the list is empty at rest |
| MemoryBroker.MirrorIsExactWithoutOverlap | brokers/in-memory/broker.go:40-73 | contents and order are exact too as long as no two producers, clients or retrying workers, are between append and send at once |
| MemoryBroker.OverlapCanMisorder | brokers/in-memory/broker.go:68-72 | as soon as two are, with different messages and room for both, one order of their sends leaves a list in another order than the channel |
| MemoryBroker.PendingIsRest | brokers/in-memory/broker.go:30-73 | overlapping or not, the pending list is what producers appended, in order, without as many of the first as were received and popped |
| MemoryBroker.HandedAreAPrefix | brokers/in-memory/broker.go:40-52 | messages handed to workers are a prefix of those sent; the rest is with the consumer and in the channel, in order; and what a worker works on is what it was handed last |
| MemoryBroker.EachHoldsItsOwn | server.go:308-314 | in every run a worker that works or retries holds the message handed to it last, and a client that is sending the one it submitted last |
| MemoryBroker.SendsItsOwn | server.go:480-488 | so a retry sends the message the worker took, a client what it submitted, and a hand-over gives the worker the next message sent |
| MemoryBroker.MessagesAreConserved | brokers/in-memory/broker.go:30-73 | over every run each message was submitted as often as it is in the channel, with the consumer, a worker or a client, or finished |
| MemoryBroker.NothingIsMadeUp | brokers/in-memory/broker.go:30-73 | nothing was sent, received or handed over that no client submitted |
| MemoryBroker.ClosesOnlyIfCancelled | brokers/in-memory/broker.go:40-45 | the work channel is closed only after the server was asked to stop |
| MemoryBroker.NothingAfterClose | brokers/in-memory/broker.go:25-28 | nothing is handed over after the work channel is closed |
| MemoryBroker.ReturnLosesNothing | server.go:256-312 | when Start returns, each received message was taken by exactly one worker and the rest are in the channel in order; every message was finished as often as submitted, but for copies in the channel or with a sending client |
| MemoryBroker.DeadlockIsJam | brokers/in-memory/broker.go:40-72 | a queue that is not shut down is stuck if and only if the consumer waits for a worker while every worker waits for room in the full channel |
| MemoryBroker.JamIsForever | brokers/in-memory/broker.go:40-50 | a stuck queue stays stuck whatever clients do and even when it is asked to stop, so Start never returns |
| MemoryBroker.NoDeadlockUpToBound | brokers/in-memory/broker.go:61-72 | before the close that is unreachable with at most 100 + W live jobs |
| MemoryBroker.JamIsReachable | server.go:273-287 | and reachable with 101 + W, for every W > 0 |
| MemoryBroker.StuckAfterClose | brokers/in-memory/broker.go:72 | after the close a worker is stuck if and only if it has a retry to send and the channel is full |
| MemoryBroker.StuckIsForever | brokers/in-memory/broker.go:40-44 | and then for good |
| MemoryBroker.NoneStuckUpToBound | brokers/in-memory/broker.go:61-72 | that is unreachable with at most 100 live jobs |
| MemoryBroker.StuckIsReachable | server.go:480-488 | and reachable with 101, for any number of workers |
| MemoryBroker.ReturnsIfRoom | server.go:273-312 | after the close Start can still return if and only if the channel has room for every retry under way |
| Pagination.MemoryPending.GetPendingWithPagination | brokers/in-memory/broker.go:88-131 | the page asked for, for every offset and limit: the first offset 0, 100 messages if no limit is given and 10000 at most |
| Pagination.RedisPage | brokers/redis/broker.go:106-148 | the same from an inclusive range, even if the list changes after it was counted |
| Pagination.PageIsUnique | brokers/redis/broker.go:136-140 | there is only one such page |
| Pagination.BothBrokersAgree | brokers/redis/broker.go:106-148 | so both brokers answer the same on the same list |
| Pagination.PagesTile | brokers/in-memory/broker.go:111-131 | consecutive pages are the list from its start, each message once and in order |
| ScheduledMover.RoundIsNear | brokers/redis/broker.go:177 | a score is off by at most half the gap between neighbouring float64 values |
| ScheduledMover.RoundIsNearestFloat | brokers/redis/broker.go:177 | a score is the nearest number to the time with 53 significant bits, the even one of two, and the time itself below 2 to the 53 |
| ScheduledMover.RoundIsMonotone | brokers/redis/broker.go:177 | scores never swap two times |
| ScheduledMover.DueInTime | brokers/redis/broker.go:222-227 | no job is released late, or earlier than one gap |
| ScheduledMover.EarlyBy256AtMost | brokers/redis/broker.go:222-227 | for times from 2 to the 60 to 2 to the 61 nanoseconds that is 256 nanoseconds |
| ScheduledMover.EarlyBy256 | brokers/redis/broker.go:222-227 | and one job can be exactly that early |
| ScheduledMover.NeverLost | brokers/redis/broker.go:218-239 | wherever polls stop, exactly the scheduled messages are in the sorted set or have been pushed |
| ScheduledMover.ListCountsPushes | brokers/redis/broker.go:231-236 | a message is in the list as often as polls found it on top and did not stop before the push |
| ScheduledMover.PushedOnce | brokers/redis/broker.go:218-239 | if no poll with something due stops after its push, each message is pushed at most once and left the sorted set then |
| ScheduledMover.RepeatsIffDoubled | brokers/redis/broker.go:218-239 | for messages scheduled once, polls that do not stop can go on to push one twice if and only if an earlier poll with something due stopped after its push |
| ScheduledMover.StoppedPollPushesTwice | brokers/redis/broker.go:231-239 | a poll that stops after its push has the message pushed twice |
| ScheduledMover.PollsDrain | brokers/redis/broker.go:218-239 | n due messages are moved by n polls, in descending order of score and of bytes where scores are equal |
| ScheduledMover.ScheduledQueue.ZRevRangeByScore | brokers/redis/broker.go:222-227 | the message with the highest score up to the time of the poll, the last by bytes of several, or none |
| ScheduledMover.ScheduledQueue.PollScheduled | brokers/redis/broker.go:211-242 | one poll, stopped or not, is one event of the mover: that message goes to the head of the list and out of the set, unless the poll stops at or after the push |
| NameList.RoundTrip | results/nats-js/results.go:170-186 | splitting on newlines inverts joining with newlines for every list of non-empty newline-free names |
| NameList.JoinOfParts | results/nats-js/results.go:252-258 | lists joined one after the other are joined by one newline |
| NameList.NamesOfParts | results/nats-js/results.go:170-186 | the names of two lists joined by a newline are the names of both |
| NameList.ParseNames | results/nats-js/results.go:170-186 | the byte loop yields the non-empty lines in order |
| NameList.JoinNames | results/nats-js/results.go:252-258 | the output loop joins the names with newlines |
| NameList.DeletedList | results/nats-js/results.go:224-259 | what DeleteTask writes is parsed as the old list without the name, in order |
| NameList.WithoutOfParts | results/nats-js/results.go:243-249 | only the name itself is left out; nothing is doubled or moved |
| NameList.SetTaskBreaksNames | results/nats-js/results.go:114-142 | after "ab" and then "c" are stored the list reads a, b, c |
| NameList.SetTaskKeepsNames | results/nats-js/results.go:114-142 | SetTask keeps the list right if and only if the new name is one, and all stored names are single characters other than NUL, or the new one is such and already stored, or it is all NULs and stands last behind such names |
| NameList.SetTaskLists | results/nats-js/results.go:113-142 | a name that SetTask was given is listed afterwards, unless it is a single character that occurs in the list without being a name there |
| NameList.SetThenGet | results/nats-js/results.go:102-206 | whenever SetTask kept the list right, GetAllTasks then answers what it answered before followed by the new metadata, or for a name listed before has the new metadata among the rest |
| NameList.StoredOfParts | results/nats-js/results.go:192-203 | the metadata of a list is that of its parts in order, and of one name the value under "tasqueue-task-" and the name, if there is one |
| NameList.StoredWithout | results/nats-js/results.go:192-203 | a name without metadata is as good as gone from the list |
| NameList.KeysDiffer | results/nats-js/results.go:11-16 | the keys of the list, of tasks and of results never collide |
| NameList.TaskStore.GetAllTasks | results/nats-js/results.go:161-206 | the metadata of the listed names that have any, in order |
| NameList.TaskStore.DeleteTask | results/nats-js/results.go:209-263 | once the metadata is gone GetAllTasks answers as if the name had left the list, even if the list could not be rewritten; no other key changes |
| NameList.TaskStore.SetTask | results/nats-js/results.go:102-148 | the metadata is stored, and the list changed only if no character of it is the name |
| MemoryResults.ResultHitsMessage | jobs.go:230-244 | a saved result can land on a message exactly if its ID starts with a message prefix |
| MemoryResults.WritesAreSeparate | chains.go:136-143 | for other IDs the flat store is four separate maps |
| MemoryResults.SavingOverwrites | jobs.go:101-103 | for such an ID saving a result overwrites a message |
| MemoryResults.Results.DeleteJob | results/in-memory/results.go:43-51 | the saved result and both index entries go; the job's message and all other keys stay |
| MemoryResults.Results.GetSuccess | results/in-memory/results.go:77-86 | n empty strings, then the n IDs, each once |
| MemoryResults.Results.GetFailed | results/in-memory/results.go:88-97 | the same for the failed index |
| MemoryResults.ListingMeansSet | results/in-memory/results.go:77-97 | other than the padding the listing is the set |

## Left out

- Server.Server.Enqueue: ends in Clash for a chosen ID in use, where the source goes on and overwrites (Lifecycle.ReusedIdIsNotForever shows the effect); such IDs are outside what runs allow.
- Server.Server.EnqueueFollower: ends in Clash for a chosen ID in use, for the same reason (Recurrence.ExplicitIdOverwritesItself).
- Server.Server.WalkOn: is given a number of lookups, after which it counts as still walking; Walks says for which chains the source's loop needs such a limit.
- Server.Server.SetGroupMessage: a failing write of a group or chain message is taken to have no effect of its own; any other poller may still write.
- MemoryBroker.NoDeadlockUpToBound: is about jobs that only retry; a worker that enqueues followers can fill the channel further.
- What two live copies of a job do to each other beyond the lemmas of DoubleMoves.
- Tracing, logging, callbacks, the cron scheduler's start and stop: no effect on job state.
- Message encoding, UUIDs and cron parsing: a deep copy, an unused ID, and an abstract answer.
- Wall-clock time and ProcessedAt; a timeout is only one way a handler can end, and a handler that outlives it may still save.
- The queue order and the fixed roles of threads in the lifecycle: there any idle thread may take any queued message; order is in MemoryBroker.
- When a poll of the lifecycle happens and in which order it moves due messages; both are in ScheduledMover.
- Times before 1970 as scores, Redis piping, metadata expiry, the Redis results store, and the NATS broker.
- Creation of a queue's channel in the in-memory broker, which checks and then acts: the model starts with the channel present.
- Registering tasks and queues, and task metadata other than the NATS name list.
- Names with characters beyond ASCII in the NATS name list.
- Sharing of spare slice capacity between jobs built from one OnSuccess list.
