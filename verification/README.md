# The job dispatch protocol of TA_GEAMAN

A test job exists twice: as a message in a RabbitMQ priority queue and as a status row in PostgreSQL.
The server's handlers move both without a shared transaction, runners poll, execute and report, and
cancelled jobs stay in the queue until a poll meets them. This project models those handlers, the
queue manager, the store and the runner, and proves what the two copies of a job keep in common.

Check it with `dafny verify dfyconfig.toml`.

## How it is built

- `models`, `store` and `broker` are the vocabulary, the rows with the SQL statements that change them,
  and the broker as sets of ready, unsettled and settled messages with a delivery order.
- `world` holds the two stores side by side and each handler as a function on them, with the outcome of
  every call as a parameter. `rabbitmq`, `store` and `handlers` hold the imperative code, class by class
  and branch by branch, proved against those functions. `effects` says in plain values what the functions
  do: statuses by name, fields one by one, results as the store reads them back.
- `protocol` splits the handlers into single broker calls and database statements, with any number of
  handlers in flight. `safety`, `handout`, `noloss`, `precedence` and `history` prove what all its runs
  keep.
- `finality` proves what no continuation of a run can do any more, `reach` what some continuation can
  still do, and `exactness` puts the two together: when a job can be handed out (again), when a stop is
  final, when a prioritization duplicates work, when a published copy runs, when a job is lost.
  `succession` follows lineages of prioritizations through interleaved runs. `witnesses` holds runs that
  show why the conditions are there.
- `bridge` shows that a whole handler is a run of those steps. `agreement`, `refinement`, `progress` and
  `lineage` prove what holds when whole handlers follow each other without failures, and `blocking` when
  a queue is stuck behind the message of a RUNNING job.
- `storelaws` proves the laws of saving and updating, `listing` those of the ordered projects table,
  `routing` and `cache` the concurrent parts of the queue manager and the project cache, `uploads`,
  `runner` and `jobrun` the submission and the runner. `endtoend` composes overview, choice, poll, report
  and record, `mainloop` repeats that, and `abort` follows an abort from the request to the row's last
  status.

## Assumptions

- UUIDs are fresh. JSON bodies, details and metadata survive encoding and decoding.
- The broker delivers the highest AMQP priority first and first in, first out within a priority; a
  requeued message takes its old place again. A delivered message stays with its handler until that
  handler settles it; a settlement that fails without taking effect makes the message ready again.
- Any call may fail, before or after it took effect.
- Progress and results for a job come only from a runner that was handed the job, and never say PENDING.
- Where a theorem needs more, it says so: at-most-once handout asks of one job either that its reports
  that take effect name only statuses that bar it (RUNNING, ABORT_REQUESTED or the server's terminal set)
  or that its replies and acks succeed. A runner that exits cleanly without naming a status posts
  COMPLETED, which the server does not take for terminal; `JobRun.PostBarsHandout` says exactly when a
  post bars. A report that does not bar is harmless exactly once the job's message is settled.
- While a job is followed from abort to result, nobody but its own runner's final post reports its status.

## Where the code and its comments differ

The model follows the code.

- `pkg/storage/persistent/store.go:74` says the progress statement merges metadata; it leaves that column
  alone.
- `pkg/queue/queue.go:22` calls the queue's size the number of pending jobs; it also counts the messages
  of stopped jobs (`Progress.TwoViewsAgree`).
- `pkg/models/models.go:80-81` describes CANCELLED as "before running" and ABORT_REQUESTED as "while
  running"; the handlers write both whatever the status is.
- `pkg/api/handlers.go:625-649` re-queues a job, but the copy gets no row and never runs
  (`Finality.RerunNeverRuns`).

## Model

| member | source | states |
|---|---|---|
| `Safety.MessagesConserved` | pkg/api/handlers.go:203-322 | In every reachable state a published job id is in exactly one of ready, held and settled, and a held one belongs to exactly one handler. |
| `Safety.PartitionedStep` | pkg/queue/rabbitmq/rabbitmq.go:335-367 | Every broker call, failing or not, keeps that partition. |
| `Bridge.GetNextRuns` | pkg/api/handlers.go:194-322 | Whatever fails, get-next run alone is a run of the interleaved steps, and a delivery ends in exactly one settlement attempt, the last thing the handler does. |
| `Handout.AtMostOnce` | pkg/api/handlers.go:238-322 | Over every run, a job is sent to a runner at most once if every report of its runner that takes effect bars it, or if its replies and acks succeed. (The two are enough; `Exactness.HandedAgainExactlyWhen` is exact.) |
| `Exactness.HandedAgainExactlyWhen` | pkg/api/handlers.go:238-322 | From any reachable state a job that was handed out can be handed out again exactly as long as its message is not settled; from then on no report does harm. |
| `Exactness.GivenAgainExactlyWhen` | pkg/api/handlers.go:203-322 | From any reachable state a job with a row can be handed out (again) exactly when its message is not settled and it is PENDING, some handler is about to give it, or it was handed out before. |
| `Effects.GetNextByStatus` | pkg/api/handlers.go:238-322 | By the name of the row's status: PASSED, FAILED, ERROR, SKIPPED, CANCELLED, ABORTED, SYSTEM_ERROR and ABORT_REQUESTED settle the message and change nothing else, RUNNING puts it back, and PENDING, COMPLETED, the empty and any unknown status are claimed, sent and settled, with what each failure leaves and replies. |
| `Effects.GetNextWithoutRow` | pkg/api/handlers.go:203-236 | What get-next does and replies when nothing is pulled, the read fails or there is no row. |
| `Effects.ClaimKeepsDetails` | pkg/api/handlers.go:272-307 | A job that is handed out keeps its details: the reply and the RUNNING row have every detail the row had with its old value, the runner's id (or "unknown") under "runner_id", and no other key; the start time is now and nothing else changes. |
| `Dispatch.GivesExactlyWhen` | pkg/api/handlers.go:203-322 | Exactly when get-next sends a job: pull, read, claim and reply succeed and the row's status does not bar it; a job handed out before is handed out again just then. |
| `Handout.StatusMoves` | pkg/storage/persistent/store.go:66-85 | The only steps that change the status of an existing row, and the status each one leaves. |
| `Handout.BarredStep` | pkg/api/handlers.go:238-297 | A job handed out, or claimed and about to be, keeps a row that makes every later delivery refuse it. |
| `Handout.SpentStep` | pkg/api/handlers.go:308-321 | When replies and acks succeed, a job once handed out is settled or about to be acked, never ready. |
| `Witnesses.CompletedAndLostAckHandsOutTwice` | automation/runner.go:628-630 | A run in which an ack fails and the posted result carries the runner's own default status "COMPLETED": the job is handed out twice, so at-most-once needs one of its two conditions. |
| `NoLoss.NoSilentLoss` | pkg/api/handlers.go:161-236 | In every reachable state the message of a PENDING row is ready, or held by exactly one handler, or was dropped by the row-not-found branch while its publisher was between publish and insert. |
| `NoLoss.RacedMeans` | pkg/api/handlers.go:228-236 | What that exception records: an earlier read that found no row while the job's own publisher had yet to insert it. |
| `Witnesses.OvertakenInsertLosesJob` | pkg/api/handlers.go:161-236 | A run that ends with a PENDING row and no message, so the exception is real. |
| `Exactness.PendingIsLostExactlyWhen` | pkg/api/handlers.go:203-322 | A PENDING job is lost, in that no continuation hands it out, exactly when its message is settled. |
| `Reach.AllCanBeGiven` | pkg/api/handlers.go:203-263 | Whatever stands ahead of them and whoever is in flight, any jobs whose message is ready (or being read) and whose row does not bar them can all still be handed out. |
| `Precedence.OnlyReportsReopen` | pkg/api/handlers.go:216-263 | Over every run, with no proviso: a cancel, skip, abort or supersede write that met the row precedes the row read of a later handout only if in between the job's own runner reported a status that does not bar it. |
| `Precedence.CancelWinsIfFirst` | pkg/api/handlers.go:216-263 | Hence at the first handout in every run, and at every handout of a job whose reports bar it, the row read precedes every stop write that met the row. |
| `Witnesses.CancelBeforeReadIsReopened` | pkg/api/handlers.go:744-774 | A run in which a lost ack, a cancel and a posted "COMPLETED" lead to a handout whose row read comes after the cancel, so such reports have to be excepted. |
| `Witnesses.CancelAfterReadIsOverwritten` | pkg/api/handlers.go:216-287 | A run in which a cancel between the row read and the RUNNING write is overwritten and the job handed out. |
| `Effects.StopWritesStatus` | pkg/storage/persistent/store.go:669-702 | Cancel, skip and abort change the status of one existing row and nothing else in rows or broker. |
| `Finality.StopIsFinal` | pkg/api/handlers.go:601-661 | A stop or supersede write that meets a job nobody is about to give is final, whether the job was handed out before or not: no continuation hands it out again and its row bars it for good, as long as the runner of a job handed out before makes no report that opens the row. |
| `Exactness.StopIsFinalExactlyWhen` | pkg/api/handlers.go:216-297 | For every job and reachable state: without reports that open the row, a stop is final exactly when no handler has read the row and is about to give the job. |
| `Exactness.StopIsFinalForGoodExactlyWhen` | pkg/api/handlers.go:216-297 | With any reports: the stop of a job not handed out yet is final exactly when nobody is about to give it, that of a job handed out before exactly when its message is settled. |
| `History.RowsOnlyAdvance` | pkg/storage/persistent/store.go:38-85 | From any reachable state on, a row is never removed, keeps priority and enqueue time, and never becomes PENDING again. |
| `History.RowsAreBornPending` | pkg/storage/persistent/store.go:375-420 | Rows come into being only by the pending insert, with the priority of their message. |
| `History.OnlyGetNextChoosesRunning` | pkg/api/handlers.go:287-297 | A row turns RUNNING only by get-next's claim or because its runner said so. |
| `Witnesses.RacingPrioritizeHandsOutBoth` | pkg/api/handlers.go:668-694 | A run in which a job handed out between prioritize's read and its supersede write is handed out again as its successor. |
| `Exactness.PrioritizeDuplicatesExactlyWhen` | pkg/api/handlers.go:668-704 | From any reachable state, a succeeding supersede write can end with both the job and its successor handed out exactly when it comes after a handout of the job, or while some handler is about to give it. |
| `Exactness.TwoPrioritizationsGiveTwo` | pkg/api/handlers.go:668-704 | From any reachable state in which two prioritizations of one job have passed the PENDING check, both successors can be handed out. |
| `Witnesses.TwoPrioritizationsRace` | pkg/api/handlers.go:668-681 | Such a state is reached. |
| `Succession.LineageIsGivenOnce` | pkg/api/handlers.go:664-713 | Over every interleaved run, with any failures, whose supersede writes come in time (the job not handed out, nobody about to give it, not superseded before), at most one job of a lineage of prioritizations is handed out. |
| `Succession.LineageIsHandedOutOnce` | pkg/api/handlers.go:664-713 | And that one once only, under the condition of at-most-once handout for that job. |
| `Succession.PendingIsInTime` | pkg/api/handlers.go:678-686 | A supersede write that finds the row still PENDING, with nobody about to give the job, comes in time. |
| `Finality.RerunNeverRuns` | pkg/api/handlers.go:625-649 | Over every continuation of a rerun's publish, whatever happens, the copy gets no row and is never handed out. |
| `Exactness.PublishedRunsExactlyWhen` | pkg/api/handlers.go:161-179 | A message that reached the broker can be handed out exactly when its publisher inserts a row and was told that the publish succeeded. |
| `Effects.EnqueueFiles` | pkg/api/handlers.go:133-191 | A new job is published last with its project, details and clamped, inverted priority, and read back PENDING with the same values and the time of the request; what fails does nothing. |
| `Effects.PrioritizeFiles` | pkg/api/handlers.go:664-713 | A prioritized pending job is read back CANCELLED with the reason as its only detail, its project and details are filed anew at priority 0; any other job is left alone. |
| `Effects.RerunPublishes` | pkg/api/handlers.go:625-649 | A rerun publishes project and details of the original at priority 5 and touches no row. |
| `Bridge.EnqueueRuns` | pkg/api/handlers.go:133-191 | Enqueue, with any failures, is a run of the interleaved steps. |
| `Bridge.PrioritizeRuns` | pkg/api/handlers.go:664-713 | Prioritize, with any failures, is a run of the interleaved steps. |
| `Bridge.RerunRuns` | pkg/api/handlers.go:625-649 | Rerun, with any failures, is a run of the interleaved steps. |
| `Bridge.StopRuns` | pkg/api/handlers.go:601-661 | Cancel, skip and abort, with any failures, are steps of the interleaved runs. |
| `Bridge.OpsRun` | pkg/api/handlers.go:133-322 | Every sequence of whole handlers is an interleaved run that ends with nobody in flight. |
| `Agreement.PollEffect` | pkg/api/handlers.go:194-322 | A poll consumes exactly the head of the queue and hands it out exactly when its row is PENDING; on an empty queue it does nothing. |
| `Agreement.StepAgrees` | pkg/api/handlers.go:133-713 | Every handler keeps queue and rows in agreement: each PENDING row mirrors a ready message, and ready messages have no row, a PENDING one or a stopped one. |
| `Agreement.ReachableWorldsAgree` | pkg/api/handlers.go:133-713 | Hence they agree in every reachable world. |
| `Refinement.StepRefines` | pkg/api/handlers.go:194-322 | Every handler is one step of an eager priority queue per project, in which stops delete at once and handouts take the least (min(priority, 10), publish order), or a stutter. |
| `Refinement.RunRefines` | pkg/api/handlers.go:133-713 | Every run of handlers is a run of that queue. |
| `Amqp.InversionKeepsOrder` | pkg/queue/rabbitmq/rabbitmq.go:244-258 | Clamping at 10 and inverting turns the broker's order into the users': least min(priority, 10) first, then publish order. |
| `Amqp.HeadExists` | pkg/queue/rabbitmq/rabbitmq.go:334-345 | A queue delivers something exactly when it has a ready message, and then the one that precedes all others. |
| `Progress.DrainInOrder` | pkg/api/handlers.go:202-263 | As many polls as ready messages empty the queue and its pending set, and hand out exactly the pending jobs, each once, in order. |
| `Progress.ReachesFirstPending` | pkg/api/handlers.go:202-263 | The first pending job comes out at exactly the poll after the stale messages ahead of it. |
| `Progress.TwoViewsAgree` | pkg/storage/persistent/store.go:111-118 | Overview count and queue size differ by the stale messages, no ready message has a RUNNING row, and the clamped best priority is that of the first live message. |
| `Blocking.PollMovesExactlyWhen` | pkg/api/handlers.go:243-255 | With nobody in flight, a failure-free poll of a queue with ready messages changes something exactly when the row of its first message is not RUNNING. |
| `Blocking.BlockedStaysBlocked` | pkg/api/handlers.go:243-255 | While it is, any number of polls leaves everything as it was, whatever waits behind that message. |
| `Blocking.StopUnblocks` | pkg/api/handlers.go:601-661 | A cancel, skip or abort of that job lets the next poll take the message out, without a handout. |
| `Witnesses.FailedClaimBlocksQueue` | pkg/api/handlers.go:287-303 | A RUNNING write that took effect but was reported as failed leaves a queue blocked with nobody in flight. |
| `Lineage.PrioritizeConservesWork` | pkg/api/handlers.go:664-713 | Prioritizing a pending job keeps the project's pending count, carries project and pre-cancel details to a priority-0 successor, and puts it before every pending job of priority above 0. |
| `Lineage.ComesOutFirst` | pkg/queue/rabbitmq/rabbitmq.go:244-258 | Of two pending jobs the one that precedes is handed out first when the queue is drained. |
| `Lineage.LineageIsWorkedOnce` | pkg/api/handlers.go:664-713 | Over every run of whole handlers without failures, of all jobs of one lineage of prioritizations at most one is waiting or was handed out, and that at most once. |
| `Handlers.API.HandleGetNextTest` | pkg/api/handlers.go:194-322 | The handler's branches, with any failures, change both stores and reply as `Dispatch.GetNext` says, with one settlement call per delivery. |
| `Handlers.API.GiveJob` | pkg/api/handlers.go:272-322 | The part from the RUNNING write on: claim, reply, settle. |
| `Handlers.API.HandleEnqueueTest` | pkg/api/handlers.go:133-191 | Unknown projects are refused untouched; otherwise publish, then insert, each with its failure. |
| `Handlers.API.HandlePrioritizeJob` | pkg/api/handlers.go:664-713 | Refuses missing and non-pending jobs, accepts exactly when supersede and publish succeed, and changes both stores as `Dispatch.Prioritize` says. |
| `Handlers.API.ReplaceJob` | pkg/api/handlers.go:683-713 | The part from the supersede write on: supersede, publish, insert, with each failure. |
| `Handlers.API.HandleRerunJob` | pkg/api/handlers.go:625-649 | Publishes a copy at priority 5 and writes no row. |
| `Handlers.API.HandleCancelJob` | pkg/api/handlers.go:601-612 | One unguarded status write, no matter what the status was. |
| `Handlers.API.HandleSkipJob` | pkg/api/handlers.go:613-624 | The same with SKIPPED. |
| `Handlers.API.HandleAbortJob` | pkg/api/handlers.go:650-661 | The same with ABORT_REQUESTED. |
| `Handlers.API.HandleUpdateJobProgress` | pkg/api/handlers.go:744-774 | Applies the update, and tells a missing row from a failure. |
| `Effects.ProgressUpdatesRow` | pkg/storage/persistent/store.go:705-750 | An update appends its chunks to logs and messages, replaces status, pass rate and progress where it carries them, and changes nothing else of any row. |
| `Handlers.API.HandleSubmitResult` | pkg/api/handlers.go:325-412 | Saves a record that does not depend on the order in which the form's fields are visited, or nothing if an upload fails; every recorded object was stored; after success the job reads back as submitted, field by field. |
| `Handlers.API.SaveSubmitted` | pkg/api/handlers.go:398-406 | The save at the end and its reply. |
| `Effects.SubmitReadsBack` | pkg/api/handlers.go:354-404 | Status, messages, start time, pass rate and progress are read back as submitted, project, metadata and duration normalised, a missing end time as now and a missing duration as end minus start, with the creation data of the prior row and no other row changed. |
| `Handlers.API.StoreUploads` | pkg/api/handlers.go:366-396 | The upload loop over the fields, in any order. |
| `Uploads.NamesKeepJobsApart` | pkg/api/handlers.go:776-795 | Uploaded files of different jobs never share an object name, job ids having no slash. |
| `Handlers.API.StoreField` | pkg/api/handlers.go:371-392 | The upload loop over one field's files. |
| `Handlers.API.RefreshProjectsCache` | pkg/api/handlers.go:85-98 | Fails exactly when the query or a row scan does and then leaves the cache alone; otherwise the cache lists the table. |
| `Handlers.API.IsProjectValid` | pkg/api/handlers.go:121-130 | Decides membership in the cache. |
| `Handlers.API.HandleAddProject` | pkg/api/handlers.go:820-859 | Succeeds exactly for a name not cached with both calls succeeding, and then the cache lists the table; what every failure leaves in table and cache. |
| `Handlers.API.HandleDeleteProject` | pkg/api/handlers.go:862-902 | The same for deleting, refused exactly for an empty name or when a configured protection key was not sent. |
| `Handlers.API.HandleGetAllQueueStatuses` | pkg/api/handlers.go:511-554 | The overviews of the cached projects in order, or an error if one fails. |
| `RabbitMQ.RabbitMQManager.DeclareProjectQueue` | pkg/queue/rabbitmq/rabbitmq.go:170-228 | Afterwards the project's key routes to its own queue alone; it fails only where it has to act. |
| `RabbitMQ.RabbitMQManager.EnqueueJob` | pkg/queue/rabbitmq/rabbitmq.go:231-301 | Publishes with the clamped, inverted priority to the project's queue. |
| `RabbitMQ.RabbitMQManager.GetNextJob` | pkg/queue/rabbitmq/rabbitmq.go:307-388 | Delivers the head of the queue; an undeclarable queue counts as empty; a body that does not decode is dropped at once and reported. |
| `RabbitMQ.DeliveryAckNacker.Ack` | pkg/queue/rabbitmq/rabbitmq.go:55-72 | Settles once; after a success further calls do nothing. |
| `RabbitMQ.DeliveryAckNacker.Nack` | pkg/queue/rabbitmq/rabbitmq.go:75-90 | Requeues or drops once; after a success further calls do nothing. |
| `Routing.SafeRouting` | pkg/queue/rabbitmq/rabbitmq.go:170-289 | Under any interleaving and failures a cached project is declared and bound, one goroutine declares at a time, and every publish after a successful declaration reaches exactly its project's queue. |
| `ProjectsCache.CacheIsASnapshot` | pkg/api/handlers.go:85-130 | The cache is empty until a refresh completes and then always lists one whole past value of the table. |
| `Listing.NameLeMeans` | pkg/storage/persistent/store.go:128-132 | The listing's order is ascending: a prefix first, else by the first character that differs. |
| `Listing.ListingIsUnique` | pkg/storage/persistent/store.go:128-132 | A table has only one ordered listing (and `Listing.Listed` is one). |
| `ProjectsCache.LoneRefreshIsCurrent` | pkg/api/handlers.go:85-98 | A refresh nobody overlaps shows the current table, from any state. |
| `ProjectsCache.SerialRefreshesNeverRegress` | pkg/api/handlers.go:85-98 | While refreshes run one at a time, with adds and deletes at any moment, the cache never goes back to an older value of the table. |
| `ProjectsCache.OverlappingRefreshesCanRegress` | pkg/api/handlers.go:85-98 | From every coherent state in which some refresh has a snapshot outstanding, a change and one refresh that overtakes it lead back from the current value of the table to an older one. |
| `Persistent.Store.CreatePendingJob` | pkg/storage/persistent/store.go:375-420 | Inserts the pending row; an empty id or project is refused. |
| `Persistent.Store.SaveResult` | pkg/storage/persistent/store.go:423-471 | Upserts the result row with its normalisations. |
| `Persistent.Store.GetResult` | pkg/storage/persistent/store.go:474-543 | Reads a row back field by field; a missing row is no error. |
| `Persistent.Store.UpdateJobStatus` | pkg/storage/persistent/store.go:669-702 | Writes status, start time when RUNNING, and details when given; a missing row is no error. |
| `Persistent.Store.UpdateJobProgress` | pkg/storage/persistent/store.go:705-750 | Applies an update; a missing row is an error. |
| `Persistent.Store.GetProjectQueueOverview` | pkg/storage/persistent/store.go:766-790 | The overview of a project's rows. |
| `Persistent.Store.GetProjects` | pkg/storage/persistent/store.go:218-245 | The ordered listing of the table, or an error exactly when the query or a scan fails. |
| `Persistent.BestIsLeast` | pkg/storage/persistent/store.go:111-118 | No pending job of the project has a smaller priority than the overview's. |
| `Persistent.BestIsPending` | pkg/storage/persistent/store.go:111-118 | The overview's priority is that of a pending job of the project. |
| `StoreLaws.SaveReadRoundTrip` | pkg/storage/persistent/store.go:423-543 | Reading back a saved result gives its normal form with the prior row's details, priority and enqueue time, and no other row changes. |
| `StoreLaws.LastSaveWins` | pkg/storage/persistent/store.go:38-55 | Of two results saved for a job only the later counts; saving twice is saving once. |
| `StoreLaws.NormalIsStable` | pkg/storage/persistent/store.go:439-465 | Saving the normal form instead of the result leaves the same row. |
| `StoreLaws.ActMeansUpdate` | pkg/storage/persistent/store.go:75-85 | The progress statement changes the one row as the action does, and no other. |
| `StoreLaws.ComposeActs` | pkg/storage/persistent/store.go:75-85 | Two updates in a row act as their composition. |
| `StoreLaws.IdentityActs` | pkg/storage/persistent/store.go:75-85 | The update of all nulls is the identity of composition and of the action. |
| `StoreLaws.ComposeAssociates` | pkg/storage/persistent/store.go:75-85 | Composition of updates is associative. |
| `StoreLaws.ActAllIsOneUpdate` | pkg/storage/persistent/store.go:705-750 | Any finite series of updates acts as one update. |
| `StoreLaws.ReadAfterUpdates` | pkg/storage/persistent/store.go:474-543 | After any series, logs and messages are the old value and all chunks in order, status, passrate and progress the last non-null value, and nothing else changed. |
| `Runner.SelectBestProject` | automation/runner.go:306-331 | Selects the first eligible project of least priority value below 10, and nothing exactly when there is none. |
| `Runner.ExecuteScript` | automation/runner.go:414-640 | The posted status, and per field the trimmed non-empty paths of the report in order. |
| `Runner.Salvage` | automation/runner.go:486-543 | A killed script: ABORTED unless its output names a status, and files only of an output that decodes. |
| `Runner.Collect` | automation/runner.go:548-617 | A script that ended by itself: the status its output names, ERROR for an output of a clean exit that does not decode, and its files. |
| `Runner.PostedStatusIs` | automation/runner.go:487-631 | The posted status case by case: ERROR when nothing ran, COMPLETED, the reported status or ERROR after a clean exit, one of six reported statuses or FAILED after a failed one, ABORTED or the salvaged status after a kill. |
| `Runner.PostedFilesAre` | automation/runner.go:498-617 | The posted screenshots, videos and log file case by case. |
| `Runner.AppendAttachments` | automation/runner.go:583-608 | Adds one attachment per trimmed non-empty path, in order. |
| `Runner.AttachAppend` | automation/runner.go:583-592 | Each further path adds its trimmed, joined form at the end, or nothing if it is blank. |
| `JobRun.OnePostAfterTheScript` | automation/runner.go:184-240 | Over every interleaving at most one result is posted, only after the script ended and with its status; the context is cancelled exactly when a status reply asked for it. |
| `JobRun.TickStopsExactlyFor` | automation/runner.go:215-228 | A status check cancels the context and leaves the loop exactly for ABORTED, CANCELLED and ABORT_REQUESTED; any other reply and an error change nothing. |
| `JobRun.PostFollows` | automation/runner.go:209-235 | Once the script has ended, the post is at most two steps of the main goroutine away. |
| `JobRun.OnlyTicksDelayThePost` | automation/runner.go:209-235 | In every continuation, as long as nothing is posted, every event but the last is a tick whose reply does not ask to stop. |
| `JobRun.PostedStatusLaws` | automation/runner.go:487-631 | A natural exit never posts an empty status, an error exit posts one the runner takes for final, an abort posts ABORTED unless the salvaged output says otherwise. |
| `JobRun.PostBarsHandout` | pkg/api/handlers.go:798-811 | Exactly when the posted status makes the server refuse another handout. |
| `EndToEnd.SelectedPollHandsOverTheBest` | automation/runner.go:151-168 | Polling the selected project hands over a job of least priority among all offered to the runner, below 10, after at most the stale messages; for a project whose name is its own trim. |
| `EndToEnd.NothingUrgentNothingSelected` | automation/runner.go:306-331 | Nothing is selected exactly when no offered job has a priority below 10. |
| `MainLoop.LoopServesUrgent` | automation/runner.go:143-176 | The runner's loop (overview, choice, poll, result) with nobody else moving: after as many rounds as there are stale messages and jobs of priority below 10 in the served queues, exactly those jobs have been handed out, each once, by priority and within a project in the broker's order, and from then on nothing is selected; for projects whose name is its own trim. |
| `EndToEnd.UntrimmedProjectIsStarved` | automation/runner.go:312-326 | A selected project whose name is not its own trim gets none of its jobs handed out, however often it is polled. |
| `EndToEnd.ReportBecomesRecord` | automation/runner.go:725-741 | Screenshots and videos of the record are the images of the script's trimmed, non-empty, openable paths in order, logs the stored log file. |
| `EndToEnd.UploadedAppend` | automation/runner.go:725-741 | Each further reported path adds the base name of its trimmed, joined form, unless it is blank or does not open. |
| `Abort.KilledOnlyAfterStop` | automation/runner.go:200-226 | Over every interleaving of the server's steps with a job's run: the context is cancelled and the script killed only after a cancel, abort or supersede write met the job's row (not a skip). |
| `Abort.PostEndsWith` | pkg/api/handlers.go:325-412 | The one result is accepted exactly when its uploads are stored and it is not the salvaged report of a killed script that names the empty status; the job then reads back as the result sent, with the posted status, ABORTED for a killed script unless its report says otherwise; else the rows stay as they were. |
| `Abort.PostIsTheLastWord` | automation/runner.go:229-239 | After the post the row of a stopped job keeps its status until the next stop, so an aborted job whose post was refused stays ABORT_REQUESTED. |
| `Abort.AbortCompletes` | automation/runner.go:469-489 | From every state of a running job, a CANCELLED or ABORT_REQUESTED write that meets its row, the next status check, the kill and the post of ABORTED lead to a row that says ABORTED. |

## Left out

- HTTP routing, CORS, logging, TLS, configuration, startup and shutdown.
- Handlers.API.HandleGetNextTest: takes delivered bodies to decode, because EnqueueJob encoded them; the
  contrary branch is in GetNextJob only.
- Handout.AtMostOnce: only its two conditions are stated, each sufficient; the exact condition, state by
  state, is `Exactness.HandedAgainExactlyWhen`.
- Lineage.LineageIsWorkedOnce: covers whole handlers without failures; interleaved and failing ones are
  covered by `Succession.LineageIsGivenOnce`.
- Runner.ExecuteScript: does not state the messages added to a result (raw logs and error texts), nor the
  exit without a result when the job's details cannot be encoded again, because details came from JSON.
- The contents of stored artifacts: only their names are modelled. Two uploads of different fields with
  the same base name overwrite each other in visiting order.
- Presigned URLs, status checks, the queue-size request, active-job and per-project listings, counting by
  status: they only read.
- Report keys other than status, logs, screenshots and videos.
- Git, processes and signals: only whether the script ran, exited, failed or was terminated, and what it
  printed.
- Leaked AMQP channels after a failed settlement: the message is taken to be ready again at once.
- The internals of RabbitMQ, PostgreSQL and MinIO. ORDER BY name is taken to compare code points.
- strings.TrimSpace, filepath.Join and filepath.Base are parameters of the runner and of the upload
  naming, so the theorems hold for any such functions.
- Precision of times and durations, and time zones: a time is a number of seconds, zero for none.
- Status strings are a datatype: every string the code compares against has its own constructor.
