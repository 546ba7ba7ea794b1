# Sofon's check pipeline, verified

Sofon checks HTTP endpoints. A monitor that is due travels as a token: from the Redis
sorted set to a scheduler batch, `jobChan`, an executor worker, an HTTP goroutine,
`resultChan`, the router, `successChan` or `failureChan`, a result worker, and back to
the sorted set. On the way the result workers drive one incident machine per monitor:
retry counter, `failure_count`, `alerted`, `db_incident`, the open incident row and the
DOWN and RECOVERED alerts. This project models that pipeline, the monitor quota, the two
paged lists, the alert worker and its plugin cache, and proves what they guarantee.

`dafny verify dfyconfig.toml` checks everything.

## How it is built

Fine steps. `FineSteps.Advance` performs one atomic call (a Redis operation, a SQL
statement, a channel operation, an HTTP request) of one token. `MonitorMachine`
interleaves all tokens of one monitor with service calls and key expiry; `Network` does
so for all monitors, with bounded channels, worker pools and the HTTP semaphore.
`Projection` proves that the second is, monitor by monitor, the first. `Checks` says which
monitors are requested. `Progress`, `Dispatching` and `Drain` are about the whole:
capacities, deadlock, termination, the scheduler inside the pipeline, shutdown;
`Channels` says that channels deliver in order.

Whole handlers. `HandlerSpec` says what a handler call is for, without its control
flow. `Incidents` and `Thresholds` prove what runs of handler calls keep. `Reduction`
proves that interleaved fine steps, status updates and deletion of a monitor with one
token are such runs.
`ResultProcessor` holds the handlers as the program writes them, over the mutable stores
of `Stores`, which has one method per operation of pkg/redis and pkg/db; `Completion`
ties them both to the fine steps, for every combination of failing calls, and to
`HandlerSpec`; `Faults` says what such a combination comes to.

Components. `Scheduler` (with `SortedSet`) is one tick; `Executor` and `ExecutorWorker` the
verdict of a check and the worker's loop; `RetryLoop` the retry around
Redis; `MonitorService` and `Quota` creation, deletion, status updates and the counter;
`Keyset`, `PageWalk` and `Listings` the paged lists; `CommaList`, `PluginCache` and
`Alerts` the alert worker. `Races` shows why some properties exclude status updates at
certain moments. `Sequences`, `Domain` and `Arithmetic` are shared.

## What is assumed

- Freedom from faults is no hypothesis of token conservation, of the token bound and of
  at-most-once alerts. Elsewhere fault-free means: no try of a Redis or Postgres call
  fails, shutdown has not begun, service calls run in one step. Faults of one monitor's
  calls never enter a hypothesis about another monitor. Properties said to hold under any
  failures allow every call to take effect or not independently of whether its caller
  sees an error.
- The HTTP answer, which open row `RETURNING` reports first, the clock, and the moment
  a retry key expires are arbitrary. Clocks are monotone, so the CHECK on end_time does
  not bite.
- `failure_threshold` and `retry_limit` are arbitrary, at least 1 where it matters.
- In the machines of one monitor and of the pipeline a failed try of a repeated Redis
  operation that took effect is a step of its own, so other calls come between two tries.
  In the handlers of `ResultProcessor` and `MonitorService` an operation with its retries
  is one call whose outcome says how often it took effect; `RetryLoop` proves that these
  outcomes are exactly the possible ones.
- Incident ids are numbered in the order of insertion, as random UUIDs do not repeat;
  the text of a UUID sorts like the number it denotes, as Postgres compares them too.
- An event of a machine that is not possible in a state leaves the state as it is, so
  statements quantify over all event sequences.
- A monitor is created, updated and deleted in one step or in statements of their own,
  between which everything else may happen; what holds only of the former says so.
- A row is inserted at most d after the program took its timestamp; d is arbitrary.
- The pipeline model pops and reinserts batch entries one at a time, which includes the
  program's orders; `Scheduler` has the exact batch semantics.
- The cursor codec loses nothing; what is not a UUID decodes to no id.

## Where the code differs from what it says

- The project's README.md (line 14) promises an incident after 3 consecutive failures.
  The threshold is configurable, and a retryable failure counts only when the retry
  budget is used up: see `Thresholds.DetectionDelay`. With retries left over from before
  a success, fewer failures suffice: `Thresholds.MinimumEvidenceIsTight`.
- `handleFailure` marks the hash as alerted before it inserts the incident, and the
  table accepts status codes from 100 to 599 only. An endpoint that answers, say, 999 is
  marked and never reported: `Incidents.CouplingStep` has the exact condition,
  `Incidents.RefusedIncidentStaysSilent` the consequence.
- `handleSuccess` has a branch for an unreadable incident (success_worker.go:38-44) that
  `GetIncident` never reaches: it reports a failed read as "no incident".
- Log messages announce that a user is notified of a terminal failure
  (failure_worker.go:32) and that scheduling is retried asynchronously
  (monitor/service.go:156). Neither happens. A terminal failure parks the monitor, and a
  rescheduling that fails for good loses it: `MonitorMachine.ConservedStep` has the exact
  condition, `LostForGood` the consequence. A backpressure entry that is refused, a
  deletion that fails half way, a creation or enabling whose ZADD fails, and, without any
  fault, an enabling between the statements of a disabling are instances: `LosingRun`,
  `HalfDeleted`, `HalfCreated`, `ToggledAway`.
- Retrying is not always harmless: a rescheduling that took effect, was reported failed
  and is tried again can put one monitor in two places (`MonitorMachine.BoundStep`,
  `DoublingRun`).
- Disabling a monitor is harmless except between a failure handler's count and its alert
  (`Reduction.DisablingAtAnyMoment`); then it leaves an open incident behind
  (`Races.DisableDuringFailure`). Enabling one is harmless exactly if its token is not
  under way (`MonitorMachine.EnablingIsSafe`); otherwise two handlers may overlap and
  leave hash and rows in disagreement (`Races.EnableWithTokenUnderWay`).
- The search of incidents takes % and _ in the query as wildcards:
  `Listings.UnderscoreFindsAll`.
- Four ways in which a call can fail, a failed INSERT among them, and the deletion of a
  team use up a place in the quota for good: `Quota.SlackStep`, `Quota.LostForGood`.
- A monitor saved with the channel list `[""]` selects no plugin before it is stored and
  every plugin afterwards: `Alerts.SelectionOnceStored`.

## Model

| member | source | states |
|---|---|---|
| Executor.ExecuteHTTPCheck | internals/modules/executor/executor.go:120-241 | Status, latency, reason, retry decision and verdict for every answer: 503 with its reason for an unanswered request, terminal exactly for an unbuildable request or a DNS error that is no timeout, retryable exactly for every other unanswered one; the endpoint's own status for an answered one, successful exactly when status and latency are as the monitor asks |
| Executor.WhichAnswersAreStorable | internals/modules/result/repository.go:33-42 | Of answered requests the incident table refuses exactly those with a status outside 100 to 599 or 2^31 ms and more |
| ExecutorWorker.Worker.StartWork | internals/modules/executor/executor.go:74-113 | The worker's loop over jobChan: requests started and reschedulings made, for every way the loads end |
| ExecutorWorker.RequestsAreEnabled | internals/modules/executor/executor.go:92-100 | Only monitors that exist and are enabled are requested, with their row |
| ExecutorWorker.EnabledAreRequested | internals/modules/executor/executor.go:98-111 | Every job of an enabled monitor that can be read is requested |
| ExecutorWorker.JobIsFine | internals/modules/executor/executor.go:76-94 | One job of the loop is the fine steps of its token: dropped, acquired with the row, or back in five seconds |
| Checks.OnlyEnabledAreChecked | internals/modules/executor/executor.go:92-108 | In every run, whatever fails: a request is made only with an enabled row that the monitor had at some moment of the run |
| Checks.DisabledIsLeftAlone | internals/modules/executor/executor.go:92-94 | A disabled or deleted monitor whose tokens have got no further than to being loaded is not requested and not handled until somebody enables it, whatever fails |
| Checks.DisabledIsDropped | internals/modules/monitor/service.go:137-144 | Disabling a monitor with its tokens that far takes it out of the pipeline: after as many steps as lead to the loading, and not before, it has no token and no entry |
| MonitorMachine.ConservedStep | internals/modules/scheduler/scheduler.go:116-121 | For every event, under any failures and with service calls taken apart into statements: a kept monitor is lost if and only if the event is one of five (a rescheduling of its last token without effect, a ZPOPMIN whose reply is lost, a ZREM of its only entry, an enabling statement or an INSERT while it has no token), and a lost one is found if and only if it is scheduled or no longer to be checked |
| MonitorMachine.EntryMade | internals/modules/scheduler/scheduler.go:83-118 | When a rescheduled monitor is due: as before, two seconds later than before, in five seconds, or after the handler's delay |
| MonitorMachine.TokenConservation | internals/modules/scheduler/scheduler.go:64-127 | In every run whatever: an enabled monitor has no token exactly when a terminal failure consumed its last one since it was enabled, if and only if the run has not lost it at such an event without finding it since |
| MonitorMachine.LostForGood | internals/modules/monitor/service.go:149-158 | A lost monitor is not checked again until somebody touches it: nothing retries the scheduling |
| MonitorMachine.LosingRun | internals/modules/scheduler/scheduler.go:114-121 | Lost in two events: jobChan is full, and the entry that should come back is refused |
| MonitorMachine.HalfDeleted | internals/modules/monitor/service.go:168-172 | Lost by a deletion whose DELETE fails |
| MonitorMachine.HalfCreated | internals/modules/monitor/service.go:40-45 | Lost by a creation whose ZADD fails |
| MonitorMachine.ToggledAway | internals/modules/monitor/service.go:133-144 | Lost without any fault: an enabling falls between the statements of a disabling |
| MonitorMachine.BoundStep | pkg/redis/retry.go:8-24 | For every event: tokens outgrow the enabling updates if and only if a rescheduling that took effect is tried again, or a service call's ZADD runs as a statement of its own, while the monitor has no entry |
| MonitorMachine.TokenBound | internals/modules/result/failure_worker.go:20-58 | In every run whatever: tokens of a monitor never exceed 1 + its disabled-to-enabled updates + such events |
| MonitorMachine.FaultFreeTokens | internals/modules/result/failure_worker.go:20-58 | In fault-free runs nothing is lost, and tokens never exceed 1 + the disabled-to-enabled updates |
| MonitorMachine.DoublingRun | pkg/redis/scheduler.go:12-19 | A run in which a repeated rescheduling puts one monitor in two places |
| MonitorMachine.NoOverlap | internals/modules/executor/executor.go:74-113 | A monitor is in one place at every moment of a run, so that no two checks and no two handlers of it overlap, if and only if no event of the run gives it a second token while one is under way |
| MonitorMachine.EnablingIsSafe | internals/modules/monitor/service.go:137-138 | Enabling a disabled monitor can lead to no overlap, over all fault-free continuations without another enabling, if and only if none of its tokens is under way |
| Incidents.CouplingStep | internals/modules/result/failure_worker.go:66-103 | One handler call or one status update keeps the coupling of hash and incident table if and only if it is not the threshold failure of a result that the table's CHECK constraints refuse |
| Incidents.RefusedIncident | internals/modules/executor/executor.go:206-218 | An input: an endpoint that answers 999 trips the threshold with a result the table refuses, and the coupling is gone |
| Incidents.RefusedIncidentStaysSilent | internals/modules/result/failure_worker.go:83-99 | After such a refused INSERT no later failure ever sends an alert, until a success or a disabling deletes the hash |
| Incidents.StateCoupling | internals/modules/result/success_worker.go:52-110 | In every run of failures, successes, expiries and status updates whose failing results the table's CHECK constraints accept: hash absent iff failure_count = 0; failure_count >= threshold iff alerted iff db_incident iff exactly one open incident row |
| Incidents.HandlersAlternate | internals/modules/result/success_worker.go:73-103 | Without disabling, the alerts are DOWN(0), RECOVERED(0), DOWN(1), ... and only the incident that is open lacks its RECOVERED |
| Incidents.HandlersAnnounceInOrder | internals/modules/monitor/service.go:137-144 | With disablings, DOWN ids still strictly increase and every RECOVERED(i) directly follows DOWN(i) |
| Reduction.HandlersAreAtomic | internals/modules/result/failure_worker.go:18-119 | Every tame interleaving of atomic calls, status updates and deletion is a run of whole handler calls and updates: at each moment the shared state is the one after those committed so far, minus what the running handler still has to do. Tame: fault-free, no disabling between a failure handler's count and its alert, no enabling while the token is under way |
| Reduction.AlertAlternation | internals/modules/result/failure_worker.go:24-117 | Over all fault-free interleavings, the alerts sent for a monitor that nobody disables alternate DOWN(i), RECOVERED(i) with consecutive fresh incidents; it may be enabled once more, and deleted |
| Reduction.AlertsInOrder | internals/modules/result/success_worker.go:73-103 | Over all tame interleavings, DOWN ids strictly increase and every RECOVERED(i) directly follows DOWN(i) |
| Reduction.CouplingBetweenHandlers | internals/modules/result/success_worker.go:22-110 | In every tame interleaving whose results are storable, hash and incident rows of an existing monitor are coupled, or will be once its running handler is through |
| Reduction.DisablingKeepsCoupling | internals/modules/monitor/service.go:137-144 | A disabling leaves them coupled if and only if the token is not at one of the four calls between a failure handler's count and its alert |
| Reduction.DisablingAtAnyMoment | internals/modules/monitor/service.go:137-144 | The same after any tame run: the exact moments at which disabling is harmless |
| Races.DisableDuringFailure | internals/modules/monitor/service.go:137-144 | A run at the excluded moment: an open incident, a hash without a count, an unanswered DOWN and a scheduled disabled monitor |
| Races.EnableWithTokenUnderWay | internals/modules/monitor/service.go:137-138 | A fault-free run of the other kind: the monitor is enabled again while its token is under way, two handlers overlap, and hash and rows disagree with nothing left in flight |
| Completion.FailureBodyIsFinish | internals/modules/result/failure_worker.go:18-119 | handleFailure, cut at its returns and with its deferred rescheduling, equals its atomic calls performed in a row, for every way these calls may end |
| Completion.SuccessBodyIsFinish | internals/modules/result/success_worker.go:19-120 | The same for handleSuccess |
| Completion.FailureBodyEffect | internals/modules/result/failure_worker.go:30-117 | With no call failing, handleFailure has exactly the effect and asks for exactly the delay of the reference description in HandlerSpec |
| Completion.SuccessBodyEffect | internals/modules/result/success_worker.go:36-119 | With no call failing, and hash and table agreeing, handleSuccess closes, announces and clears as HandlerSpec describes |
| ResultProcessor.Processor.HandleFailure | internals/modules/result/failure_worker.go:18-119 | The method ends in the state of its atomic calls in a row, under any failures; touches no other monitor; without failures has the reference effect and next due time |
| Faults.FailureChanges | internals/modules/result/failure_worker.go:66-103 | handleFailure under any failures of its calls, in closed form: what it changes of count, marks and rows, and when |
| Faults.FailureAlerts | internals/modules/result/failure_worker.go:95-117 | ... DOWN is sent exactly for an incident that is inserted and known to be |
| Faults.FailureRetries | internals/modules/result/failure_worker.go:43-63 | ... retries are counted, and forgotten when they are exhausted |
| Faults.FailureReschedules | internals/modules/result/failure_worker.go:24-58 | ... the monitor is rescheduled unless the failure is terminal: in five seconds if the budget absorbed it, after the interval in every other case |
| Faults.SuccessAlerts | internals/modules/result/success_worker.go:52-103 | handleSuccess under any failures: RECOVERED is sent for at most one incident, which was open, exactly if it closed one and is the first to mark it |
| Domain.AnyOpenRowMayBeReturned | pkg/db/monitor_incidents.sql.go:14-31 | The closing statement may report any row it closes |
| Faults.SuccessClears | internals/modules/result/success_worker.go:57-119 | ... hash and retries go once the close is through and stay otherwise; the monitor is due after the interval in every case |
| ResultProcessor.Processor.HandleSuccess | internals/modules/result/success_worker.go:19-120 | The method ends in the state of its atomic calls in a row, under any failures; always reschedules; without failures has the reference effect |
| RetryLoop.Retry | pkg/redis/retry.go:8-24 | What the counted loop returns and how often fn took effect; it stops at the first success or cancellation; it has waited 50 + 100 + ... ms, one wait for every failed attempt that leaves the context alive |
| RetryLoop.OutcomesPlausible | pkg/redis/retry.go:8-24 | An operation tried at least once that reports success took effect, at most as often as it was tried |
| RetryLoop.EveryPlausibleOutcomeOccurs | pkg/redis/retry.go:8-24 | Conversely every such outcome occurs, so the fault model of the other modules is exact |
| Thresholds.CountingClosedForm | internals/modules/result/failure_worker.go:41-78 | After n non-retryable and r retryable failures in any order: count = c0 + n + (r0 + r) div (limit + 1), retry = (r0 + r) mod (limit + 1) |
| Thresholds.DownFiresAtThreshold | internals/modules/result/failure_worker.go:75-91 | An outage sends exactly one DOWN, with the failure that brings the count to the threshold |
| Thresholds.MinimumEvidence | internals/modules/result/success_worker.go:45-48 | After a success, retryable failures send DOWN only after at least (threshold - 1)(limit + 1) + 1 of them, whenever the retry key expires |
| Thresholds.SuccessClears | internals/modules/result/success_worker.go:45-119 | After any run a success deletes the hash, leaves no row open, announces the end of the open incident if there is one, and forgets the retries exactly if there was a hash |
| Thresholds.FullEvidence | internals/modules/result/success_worker.go:105-119 | If the success found a hash, the next outage takes the full threshold * (limit + 1) failing results |
| Thresholds.MinimumEvidenceIsTight | internals/modules/result/success_worker.go:45-48 | So few are enough: a success that finds no hash leaves the retry counter running |
| Thresholds.OutageSoFar | internals/modules/result/failure_worker.go:41-91 | From a clean start, DOWN has been sent exactly if the number of retryable failures div (limit + 1) has reached the threshold |
| Thresholds.DelayClosedForm | internals/modules/result/failure_worker.go:24-58 | The delays asked for by n retryable failures sum to 5 s each, save for every (limit + 1)-th one, which asks for the interval |
| Thresholds.DetectionDelay | internals/modules/result/failure_worker.go:52-78 | From a clean start, DOWN is sent by the threshold * (limit + 1)-th failure and not before; the delays until then sum to threshold * limit * 5 + (threshold - 1) * interval |
| AtMostOnce.AlertsAtMostOnce | pkg/redis/incident.go:110-128 | Under any failures, with the tries of repeated operations and service statements interleaved freely, and any number of tokens: at most one DOWN and one RECOVERED per incident, neither before its row exists, and incidents <= 1 + deletions of the hash |
| Projection.PipelineProjects | internals/modules/executor/executor.go:74-113 | What the whole pipeline, with bounded channels and worker pools, does to one monitor is a run of that monitor's own machine |
| Projection.NothingLost | internals/modules/scheduler/scheduler.go:64-127 | Each monitor of the pipeline is lost exactly as its own history says, without any hypothesis on faults or on the others |
| Projection.NothingMultiplies | internals/modules/result/failure_worker.go:20-58 | Token bound for each monitor of the pipeline, without any hypothesis |
| Projection.NothingTwice | internals/modules/executor/executor.go:98-112 | One place at a time for each monitor to whose history no event adds a second token, enablings with no token under way included |
| Projection.PipelineAlternates | internals/modules/result/failure_worker.go:106-117 | Alternation of alerts for each monitor whose own calls succeed and which nobody disables, whatever fails for the others |
| Projection.PipelineCouples | internals/modules/result/success_worker.go:52-110 | Coupling for each monitor whose own run is tame and storable, whatever fails for the others |
| Projection.AlertsAccounted | internals/modules/alert/service.go:97-111 | Every alert sent is in the channel, with a worker or handled, once; rows are written only for handled ones |
| Projection.AtMostTwoRows | internals/modules/alert/service.go:258-273 | An incident gets at most one alert row for DOWN and one for RECOVERED, whatever fails |
| Progress.LimitsHold | internals/modules/executor/executor.go:98-112 | No channel, pool or semaphore is ever over its configured size, each named; HTTP goroutines never outnumber the semaphore |
| Dispatching.PopsTheSmallest | pkg/redis/scheduler.go:31-41 | In the pipeline an entry is popped only if ZPOPMIN could pop it |
| Dispatching.BatchFate | internals/modules/scheduler/scheduler.go:80-123 | The fate of each popped entry in the pipeline: not due, back as it was; due, to jobChan if it has room and back with two seconds more if not |
| Dispatching.NeverEarly | internals/modules/scheduler/scheduler.go:65-83 | In every run no monitor reaches jobChan before it is due by the time that a tick has read |
| Channels.ChannelsAreQueues | internals/modules/result/processor.go:94-101 | Every channel of the pipeline is a queue: an event leaves it, appends to it or takes its first message |
| Channels.AlertsAreQueued | internals/modules/alert/service.go:78-83 | So is the alert channel |
| Dispatching.TriesAreBounded | pkg/redis/retry.go:8-24 | In every run no call is tried more often than pkg/redis tries it |
| Dispatching.TriesAreGranted | pkg/redis/retry.go:8-24 | ... and each may be tried as often as that |
| Progress.DeadlockFreedom | internals/modules/result/processor.go:75-106 | For all sizes and worker counts >= 1: whenever anything is in flight, some goroutine can make a step that gets somewhere |
| Progress.QuietRunsEnd | internals/modules/result/processor.go:94-106 | With the scheduler paused, the pipeline makes no more steps, failed tries of repeated calls included, than a measure of its state |
| Progress.QuietRunsEndEmpty | internals/modules/result/processor.go:94-106 | ... and when it can make none, every channel and every worker is empty |
| Drain.NoSendOnClosed | internals/app/container.go:111-129 | During Shutdown nothing is sent on a closed channel |
| Drain.StoppedIsEmpty | internals/app/container.go:111-129 | When Shutdown returns, no result, handler or alert is left |
| Drain.ResultsHandledOnce | internals/modules/result/processor.go:94-111 | When Shutdown returns, every result has been taken by exactly one worker, whether it was buffered when Shutdown began or pushed by a request still under way |
| Drain.AlertsAllHandled | internals/app/container.go:118-122 | Every alert sent before or during Shutdown has been handled when it returns, once |
| Drain.ShutdownProgresses | internals/app/container.go:111-129 | Until Shutdown has returned, some goroutine can go on |
| Drain.ShutdownIsBounded | internals/app/container.go:111-129 | No run of Shutdown, under any failures and with every failed try of a repeated call counted, has more steps than a measure of the state it starts in |
| Drain.ShutdownTerminates | internals/app/container.go:111-129 | A run of Shutdown in which nobody can make another step has reached its end |
| SortedSet.SmallestSpec | pkg/redis/scheduler.go:31-41 | ZPOPMIN: as many entries as asked for or there are, ascending, distinct, and every other entry is larger |
| SortedSet.AddAllAt | pkg/redis/scheduler.go:21-29 | ZADD of several members, entry by entry |
| Scheduler.Ticker.DoWork | internals/modules/scheduler/scheduler.go:64-127 | The tick's loops, non-blocking sends and reinsertion compute the specification Tick on schedule and jobChan |
| Scheduler.TickOnEntry | internals/modules/scheduler/scheduler.go:80-123 | Fate of each popped entry: not due, unchanged; no UUID, dropped; due and within the free slots, at its place in jobChan and nowhere else; due beyond them, back with score + 2 |
| Scheduler.TickKeepsOthers | internals/modules/scheduler/scheduler.go:67-74 | An entry that was not popped is unchanged |
| Scheduler.TickInventsNothing | internals/modules/scheduler/scheduler.go:110-123 | Nothing is in the schedule or new in jobChan that was not in the schedule, and nothing is in both |
| Quota.QuotaHolds | pkg/db/users.sql.go:139-143 | Live monitors + reserved creations + owed decrements <= monitors_count <= 10 for every user, in every interleaving of statements under any failures; so nobody owns more than 10 |
| Quota.GrantedBelowTen | pkg/db/users.sql.go:139-143 | In every reachable state an increment is granted exactly to a user that counts fewer than ten |
| Quota.ClampNeverActs | pkg/db/users.sql.go:39-43 | GREATEST never clamps |
| Quota.SlackStep | internals/modules/monitor/service.go:32-48 | An event enlarges monitors_count beyond monitors and claims by one if and only if it is an increment or DELETE that took effect and was reported failed, an INSERT or decrement without effect, or a deletion with the team; otherwise by nothing |
| Quota.CountIsExact | internals/modules/monitor/service.go:160-179 | In every run: monitors_count = live monitors + reserved creations + owed decrements + places lost so far |
| Quota.LostForGood | pkg/db/users.sql.go:139-143 | Places lost never come back: whatever follows, the user owns at most 10 less those lost |
| Quota.FailedInsertLeaks | internals/modules/monitor/service.go:35-43 | A run that loses one: the INSERT fails after the increment |
| MonitorService.UpdateIsOneStep | internals/modules/monitor/service.go:121-147 | With no call failing, the statements of UpdateMonitorStatus are the one step the machines take it for |
| MonitorService.Service.UpdateMonitorStatus | internals/modules/monitor/service.go:121-147 | Ends in the state of its statements in a row under any failures; other monitors are untouched; a wrong team changes nothing |
| MonitorService.UpdateOutcome | internals/modules/monitor/service.go:121-147 | UpdateMonitorStatus under any failures, in closed form: row, due time, hash and incident rows |
| MonitorService.Service.CreateMonitor | internals/modules/monitor/service.go:32-48 | Runs the quota's statements; keeps everybody within quota and leaves other monitors alone; refused at 10 with nothing changed; otherwise the monitor exists, enabled, counted and scheduled |
| MonitorService.Service.DeleteMonitor | internals/modules/monitor/service.go:160-179 | Ends in the state of its statements in a row under any failures, schedule entry and hash going first; runs the quota's statements; keeps everybody within quota and leaves other monitors alone; only a deletion that removed the row gives the place back |
| MonitorService.RemovalOutcome | internals/modules/monitor/service.go:160-179 | DeleteMonitor under any failures, in closed form |
| MonitorService.HalfDeletionLoses | internals/modules/monitor/service.go:168-172 | A deletion whose DELETE has no effect leaves an enabled monitor without a token |
| Keyset.OrderBySorts | pkg/db/monitor.sql.go:177-183 | ORDER BY ... DESC keeps exactly the rows it gets, strictly descending |
| Keyset.SelectOrderBy | pkg/db/monitor.sql.go:177-183 | Filtering and sorting commute |
| Keyset.NextRest | internals/modules/monitor/service.go:99-110 | The cursor of a page leads to exactly the rows the page left over |
| Keyset.UnparsedCursorSkips | internals/modules/monitor/repository.go:198-205 | A monitor cursor whose id is no UUID becomes NULL and skips exactly the rows of its own timestamp |
| PageWalk.NeverTwice | pkg/db/monitor_incidents.sql.go:194-202 | Whatever is inserted, deleted or changed between fetches, no row is returned twice and rows come newest first |
| PageWalk.FetchedRow | pkg/db/monitor_incidents.sql.go:187-202 | The rows of a fetch are rows of the table as it is then, match, and are below the cursor |
| PageWalk.DeletedStaysAway | pkg/db/monitor_incidents.sql.go:187-202 | A row that is deleted between fetches is not returned by any later one |
| PageWalk.EndedWalkIsComplete | internals/modules/incident/service.go:23-34 | A walk that ended returned every row present and matching at each fetch, exactly once |
| PageWalk.WalkEnds | internals/modules/incident/repository.go:104-109 | For arbitrary changes, the walk has ended once fetches * limit exceeds the rows below the cursor plus those added below it meanwhile |
| PageWalk.LandsBelowClosely | internals/modules/result/failure_worker.go:95 | If rows are inserted within d of being stamped, in any order, only a row stamped within d before the cursor's own time can land below the cursor |
| PageWalk.ClockedWalkEnds | internals/modules/incident/repository.go:104-109 | So a walk that is more than d behind the newest row ends after (rows below) div limit + 1 more fetches, whatever is inserted, deleted or changed |
| PageWalk.ChaseNeverEnds | internals/modules/incident/repository.go:104-109 | Within one instant there is no such bound: for every n a run of n fetches, rows inserted in the order of their stamps, after which there is still more |
| PageWalk.PagesMakeTheList | internals/modules/monitor/service.go:91-119 | On a fixed table, n fetches return the first n * limit rows of the sorted list, and has_more turns false with page max(1, ceil(rows / limit)) and not before |
| Listings.GetAll | internals/modules/monitor/repository.go:191-236 | For every int32 limit: limit + 1 rows are fetched, converted and cut to the page and has_more of the specification; a failed query and a limit that overflows or is below -1 are errors; -1 slices out of range |
| Listings.ListIncidents | internals/modules/incident/repository.go:29-112 | The same for every int32 limit under the incident filters, with every column; a limit <= 0 means 20; a cursor that is no UUID is InvalidInput |
| Listings.PlainQueryIsSearch | pkg/db/monitor_incidents.sql.go:195 | A query without %, _ and backslash finds exactly the URLs that contain it, up to case |
| Listings.UnderscoreFindsAll | pkg/db/monitor_incidents.sql.go:195 | Others are patterns: an underscore finds every URL |
| Listings.GetAllMonitors | internals/modules/monitor/service.go:91-119 | One page of the team's list, with the cursor of its last row exactly if there is more |
| Listings.ListedMonitor | pkg/db/monitor.sql.go:169-184 | Every row of the answer shows, column by column, a stored monitor of the asked team below the cursor, and is_down exactly if it has an open incident |
| Listings.MonitorIsListed | pkg/db/monitor.sql.go:169-184 | Every monitor of the team has such a row in the whole list |
| Listings.ListByTeamID | internals/modules/incident/service.go:17-43 | One page of the filtered incident list, with the cursor of its last row exactly if there is more |
| Listings.ListedIncident | pkg/db/monitor_incidents.sql.go:160-203 | Every row of the answer shows, column by column and with its latest alert, an incident of one of the team's monitors, below the cursor, that meets each filter: active means not ended, resolved means ended, within from and to, of the asked monitor, with a matching URL |
| Listings.IncidentHasRow | pkg/db/monitor_incidents.sql.go:160-203 | Every such incident has a row in the whole list |
| Listings.EscapedPercent | pkg/db/monitor_incidents.sql.go:195 | A backslash makes a wildcard literal |
| Listings.MonitorLinesUnique | pkg/db/monitor.sql.go:169-184 | The list query's rows have distinct ids, so the walk theorems apply |
| Listings.IncidentLineIds | pkg/db/monitor_incidents.sql.go:160-203 | The join yields each incident at most once, so the walk theorems apply |
| Listings.IncidentIsListed | pkg/db/monitor_incidents.sql.go:160-203 | Every incident whose monitor exists is in the join |
| Listings.IncidentLineJoins | pkg/db/monitor_incidents.sql.go:160-203 | Each joined row is one of the incidents, keyed by its start and id, with its own monitor |
| CommaList.StoredRoundTrip | internals/modules/monitor/repository.go:365-374 | join(split(s)) = s for every stored string |
| CommaList.ChannelsRoundTrip | internals/modules/monitor/repository.go:365-374 | split(join(cs)) = cs if and only if no element has a comma and cs is not the list of one empty name |
| CommaList.SplitOfJoin | internals/modules/monitor/repository.go:365-374 | Splitting a joined list yields exactly the pieces of its elements |
| CommaList.TrimSpaceTrims | internals/modules/plugin/repository.go:138-140 | Trimming cuts off white space, all of it and nothing else |
| CommaList.WhiteSpace | internals/modules/plugin/repository.go:138 | White space is the 25 characters that have the Unicode property |
| CommaList.ParseRecipients | internals/modules/plugin/repository.go:135-142 | The loop yields the trimmed non-empty parts in order, all of them clean |
| CommaList.RecipientsRoundTrip | internals/modules/plugin/repository.go:135-142 | Exactly the lists of trimmed, non-empty, comma-free addresses survive being joined and parsed |
| CommaList.ParsingIsIdempotent | internals/modules/plugin/repository.go:135-142 | Recipient parsing is idempotent through join |
| PluginCache.BoundedStaleness | pkg/redis/plugin_cache.go:13-33 | For every interleaving of lookups and edits, lookups that read the database while another worker fills the cache included: a configuration used at t was the enabled stored one at some instant after t - 5 min - d, d bounding the time from database read to cache write |
| PluginCache.StalenessIsTight | pkg/redis/plugin_cache.go:35-38 | The bound is exact: as nothing deletes the key, a deleted configuration can be used 5 min + d - 1 ms later |
| PluginCache.DeletionIsUnnoticed | pkg/redis/plugin_cache.go:35-38 | A plugin deleted after it was cached is used for the rest of the 5 minutes: saving invalidates nothing |
| Alerts.ChannelEnabled | internals/modules/alert/service.go:85-95 | True exactly if the list is empty or has the name |
| Alerts.SelectionOnceStored | internals/modules/monitor/repository.go:365-374 | Which plugins a channel list selects after it was stored: the pieces of its elements; all of them for the list of one empty name, which selected none |
| Alerts.EmailColumnParses | internals/modules/alert/service.go:139-152 | The addresses read back from the row are those written to |
| Alerts.PluginRepository.GetResendConfig | internals/modules/plugin/repository.go:112-149 | Missing and disabled plugins are not found; undecodable settings are an error; else the settings with parsed recipients |
| Alerts.PluginRepository.Upsert | internals/modules/plugin/repository.go:33-57 | What is saved is what an alert finds: the configuration if enabled, nothing if not; other teams are untouched |
| Alerts.PluginRepository.Delete | internals/modules/plugin/repository.go:166-177 | What is deleted is not found any more; other teams are untouched |
| Alerts.AlertService.HandleResend | internals/modules/alert/service.go:113-170 | One row per event unless inserting fails, at most one e-mail to the right addresses, and the cache filled for 5 min from the SET exactly after a miss and a successful load |
| Alerts.AlertService.HandleZenduty | internals/modules/alert/service.go:172-231 | At most one posting, resolved exactly for RECOVERED, to the cached or else stored URL, and the cache filled for 5 min from the SET exactly after a miss and a successful load |
| Alerts.AlertService.ProcessAlert | internals/modules/alert/service.go:97-111 | The whole state after one event: the halves that its channels select, in order; an event without a type counts as DOWN |
| Alerts.RowsMatchEvents | internals/modules/alert/service.go:113-170 | Over any number of events, whatever fails besides inserting and however plugins change: one row per event that selects Resend, in order, and as many rows say 'sent' as e-mails were accepted |
| Alerts.TurnEmails | internals/modules/alert/service.go:113-170 | One event leads to at most one e-mail, of its own incident, saying recovered exactly for RECOVERED, written with the cached configuration if it is fresh and with the stored and enabled one if not, to its recipients or else its sender |
| Alerts.TurnWrites | internals/modules/alert/service.go:139-152 | ... and to one exactly if the channels select Resend, there is somebody to write to, and Resend accepts it |
| Alerts.TurnRow | internals/modules/alert/service.go:117-169 | The event's row: 'sent' with time and addresses exactly if the e-mail was accepted, 'skipped_no_plugin' exactly if the table has no enabled plugin, else 'failed' |
| Alerts.TurnCaches | internals/modules/alert/service.go:131-136 | The cached configuration changes only after a read that found an enabled plugin, and then it is that one for 5 minutes |
| Alerts.TurnPostings | internals/modules/alert/service.go:172-231 | One event leads to a posting exactly if the channels select Zenduty, there is a URL and it is accepted; of its own monitor, resolved exactly for RECOVERED |
| Alerts.EverythingSentIsDue | internals/modules/alert/service.go:97-111 | Over any number of events every new e-mail and posting reports an event that selects its plugin, with its incident or monitor and kind |

## Left out

- HTTP handlers, routing, authentication, teams, invitations, registration, logging and configuration loading: single-branch plumbing with few states.
- Sending through Resend and Zenduty: an arbitrary answer.
- Encryption, JSON, base64 and time formats: library code, taken as inverse pairs.
- Stored status and the monitor cache (StoreStatus, DelStatus, SetMonitor, DelMonitor): written but never read by the pipeline.
- first_failure_at and last_failure_at of the incident hash: written but never read; the HSET that writes them is modelled, as it can recreate a deleted hash.
- A cancelled context in mid-batch and unparsable members in the pipeline model: `Scheduler` has the unparsable members.
- Shutdown before the scheduler and the executor's workers are idle: Stop waits for HTTP goroutines only, so this is a precondition of every member of `Drain`.
- Scheduler.Ticker.DoWork: nobody receives from jobChan and nobody else writes the sorted set during the tick, and its Redis calls succeed; `Network` has the interleavings.
- MonitorService.Service.CreateMonitor: one call at a time; `Quota` has the concurrent statements.
- MonitorService.Service.DeleteMonitor: one call at a time; `Quota` has the concurrent statements.
- Alerts.AlertService.HandleResend: no other worker and no edit comes between its reads and writes, though time passes; `PluginCache` has the interleavings.
- Case folding in ILIKE: a parameter, character by character.
- The value of end_time in `Stores`: only that it is set is kept.
- The web interface, installers and containers.
