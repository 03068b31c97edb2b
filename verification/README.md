# PingMe: a verified model of the check worker, sessions, alert channels and listings

PingMe claims due monitors in a database transaction, checks them in a pool of workers fed by a
bounded queue, and records each result in a second transaction that appends a log row, advances a
three-state machine and opens or resolves an incident. The API and the worker processes of other
hosts change the same tables meanwhile. This project models that system in Dafny and proves what
every run of it keeps. Beside it stand the rotating refresh sessions, the one-time Telegram link tokens with
the alert channel table, the bot's polling loop and the paginated listings.

`dafny verify dfyconfig.toml` checks everything.

## How the model is layered

- `Health` is the state machine, together with an account of a check history that does not mention it:
  length of the failing suffix, maximal failing runs.
- `Tables` gives the meaning of each committed transaction on the tables. `WorkerRepository` holds
  the transactions as the code runs them: classes, loops, statements and rollback at any
  statement, proved to have exactly that meaning or none.
- `Runs` and `Reports` are about any run of committed transactions from the empty database: tables,
  statuses and reported events always agree. `IncidentTimes` is about the times in the incident table,
  `Claims` about scheduling, over such runs.
- `Transactions` splits claims and applies into single statements with row locks, interleaved at
  will, and reduces every interleaving to a serial run, so that `Runs` and `Reports` apply to it.
  `RowLocks` says what the locks do: they order the checks of a monitor and never deadlock. `Progress` goes
  the other way: each atomic operation can be carried out statement by statement.
- `Runner`, `RunnerSafety` and `RunnerLiveness` are the worker process: scheduler, bounded
  queue, workers, cancellation and `Run`, with API calls and other worker processes in between.
- `JointSystem` puts that process on the statement-level database, and proves that every run of the
  two together is a run of both.
- `Sessions`, `Channels` with `ChannelServices`, `Bot`, `Pages`, `MonitorService`, `Notifier` and
  `WorkerConfig` are the smaller protocols; `Common` and `Text` hold what they share.

Times are integers on one UTC clock, in microseconds. Where a machine width matters it is written
out: the failure counter is a Postgres `int`, offsets and counts are Go `int`s.

## What the proofs brought to light

- A monitor that has never been checked is due again immediately after it was claimed, so several copies of
  it can be in flight (`Claims.DueAgainAtOnce`). All incident results hold with copies in flight.
- A check is stamped before its transaction takes the row lock. A success stamped early can commit
  last and end an incident before it started: `IncidentTimes.LateCommitReversesIncident` is such a run.
  `IncidentTimes.IncidentTimesExact` says of which logs this is true, `IncidentTimes.CheckKeepsTimesIff`
  which next check makes it so.
- `Run` can return nil although a claim failed and was reported, in two ways: everything is done before
  `Run` looks (`RunnerLiveness.ErrorCanBeLost`), or it sees a cancellation first
  (`RunnerLiveness.ErrorCanBeLostToCancel`). There is no third (`RunnerLiveness.NilDespiteError`,
  `RunnerLiveness.ErrorMustBeReturnedIff`).
- A failed check of a monitor whose counter has reached 2147483647 is rolled back each time
  (`Runs.ApplyOutcome`). Of the constraints the model has (keys, the index on open incidents and the width of
  the counter) this is the only one that an apply transaction can violate.
- A logout answers with success whether or not it ended anything. With a refresh token that has
  been rotated, or when a refresh of the same session gets ahead of it, the chain of sessions stays alive
  (`Sessions.LogoutEndsChain`, and `Sessions.LogoutTooLate` for a run).
- A page number near 2^63 divided by the page size makes the offset wrap around; page
  288230376151711745 of size 64 shows the first page again (`Pages.HugePageRepeatsFirst`).
- Of two patches that read a monitor before either writes, the first is lost altogether
  (`MonitorService.FirstPatchIsLost`, and `MonitorService.RenameIsLost` for a run).
- Two clamps of `LoadConfigFromEnv` never act, because what is read is already positive
  (`WorkerConfig.LoadConfigFromEnv`).

## Model

| member | source | states |
|---|---|---|
| Health.MachineFollowsHistory | internal/worker/state.go:11-36 | one step of the machine keeps status and counter equal to what the whole history says, reports down exactly at the third failure in a row, and recovery exactly at a success ending at least three |
| Health.FailingSuffix | internal/worker/state.go:21-33 | the length of the longest run of failures at the end of the log, said by positions |
| Health.OutagesExact | internal/worker/state.go:11-36 | the list of outages is exactly the set of maximal failing runs of length at least three, in order |
| Health.OutagesAdvance | internal/worker/state.go:11-36 | how one more check changes that list: nothing, one more outage, or the last one longer |
| Tables.IncidentsOfResolve | internal/worker/repository.go:165-171 | the resolving statement touches the open incidents of its monitor and no row of another |
| Tables.IncidentsOfWithout | migrations/0008_create_incidents.up.sql:3 | the cascade removes all incidents of the deleted monitor and none of another |
| Common.DecimalExact | internal/worker/repository.go:203 | the digits in a reason have the value of the status code, without leading zeros |
| Tables.ReasonExplains | internal/worker/repository.go:198-207 | the reason is the error message if there is one, else "http status " and the decimal status code if that is not 0, else "check failed" |
| Tables.CheckTellsTruth | internal/worker/repository.go:124-180 | the event carries the check and the monitor as stored after it, says down or recovered iff the check has taken the monitor down or up from down, and names the incident; one log row is added, no other monitor and no column but those of health changes |
| Runs.ApplyOutcome | internal/worker/repository.go:95-181 | the transaction finds no monitor iff the row is gone, fails of itself iff the counter would overflow, writes nothing on an error; the index on open incidents is never violated and a recovery always finds the incident it resolves |
| Runs.ConsistentAfterCheck | internal/worker/repository.go:130-173 | one check keeps status, counter, last check time and incidents in agreement with the log |
| Runs.WfKept | internal/worker/repository.go:40-181 | every committed claim, apply, create, patch and delete keeps foreign keys, key uniqueness, interval bounds and that agreement |
| Reports.IncidentTableRefinesLog | internal/worker/repository.go:95-181 | after any run the incidents of a monitor are the maximal failing runs of length at least three of its committed log, in order, started at the third failure, resolved by the ending success, open iff still running |
| Reports.IncidentReasonsExplain | internal/worker/repository.go:153-160 | after any run the reason of each incident is what the third failed check of its outage says |
| Reports.StatusIsFunctionOfHistory | internal/worker/repository.go:130-144 | after any run counter, status and last check time are the failing suffix length, down/up/unknown and last timestamp of the committed log |
| Reports.DownIffOneOpenIncident | internal/worker/repository.go:151-173 | after any run a monitor has exactly one open incident if it is down, and none otherwise |
| Reports.EventsAlternate | internal/worker/repository.go:151-180 | after any run the events of a monitor, deleted or not, alternate down and recovered, each recovery naming the incident of the down before it; no event occurs twice |
| Reports.DeletedMonitorLeavesNothing | internal/worker/repository.go:109-114 | after any run a missing monitor has no log and no incident, and applying a check of it changes nothing |
| Reports.ReportedKept | internal/worker/repository.go:95-181 | the agreement of tables and reported events is kept by every operation |
| IncidentTimes.IncidentTimesExact | internal/worker/runner.go:137 | after any run incidents end after they start iff each outage's third failure is stamped no later than the success ending it, and do not overlap iff each such success is stamped no later than the third failure of every later outage |
| IncidentTimes.IncidentTimesOrdered | internal/worker/repository.go:153-171 | after any run in which the checks of a monitor commit in the order of their timestamps, its incidents end after they start and do not overlap |
| IncidentTimes.CheckKeepsTimesIff | internal/worker/repository.go:146-171 | one more check keeps the times in order iff a success ending an outage is stamped no earlier than the open incident, and a failure opening one no earlier than the end of all earlier ones |
| IncidentTimes.LateCommitReversesIncident | internal/worker/runner.go:135-142 | a run of one creation and four checks after which an incident ends before it starts |
| Claims.MissedClaim | internal/worker/repository.go:46-58 | a claim that could have taken a due monitor and did not puts a full batch of the monitors ahead of it behind it |
| Claims.NoStarvation | internal/worker/repository.go:46-86 | with r enabled monitors at or ahead of it, an overdue monitor is claimed by the (r/limit + 1)-th claim that finds its row unlocked, while nothing is enabled or created ahead of it |
| Claims.ClaimSpacing | internal/worker/repository.go:49-86 | two consecutive claims of a monitor, the second seeing a last check time, are at least the interval stored at the first apart, with any number of schedulers |
| Claims.ClaimsPerWindow | internal/monitor/service.go:224-230 | a window of W seconds holds at most W/30 + 1 claims of a monitor that has been checked |
| Claims.DueAgainAtOnce | internal/worker/repository.go:49-53 | a claimed monitor is still due iff it has never been checked |
| Claims.NoOrphanedMonitor | internal/worker/repository.go:75-86 | whatever fails or is dropped later, an enabled monitor is due again 3600 seconds after its latest committed claim or its creation |
| Claims.PatchCommutesWithCheck | internal/monitor/repository.go:166-185 | a patch and an apply give the same database in either order |
| Claims.ConfigurationDoesNotDisturbChecks | internal/worker/repository.go:135-141 | erasing all patches and claims from any run leaves statuses, counters, logs, incidents and events as they are |
| Transactions.InvKept | internal/worker/repository.go:40-181 | every statement of every transaction keeps row locks exclusive, locked rows unchanged, and each transaction's writes right for its stage |
| Transactions.StepReduces | internal/worker/repository.go:88-90 | a statement changes the committed tables only when it commits (or is the API's own), and then as one atomic, allowed operation |
| Transactions.Reduction | internal/worker/repository.go:95-181 | every interleaving of statements gives the tables and events of the committed transactions run one after the other in commit order; rolled back transactions leave no trace |
| Transactions.InterleavingIsSafe | internal/worker/repository.go:40-181 | so every reachable state of the interleaved system keeps the agreement of tables and events |
| Transactions.IncidentStatementSucceeds | migrations/0008_create_incidents.up.sql:12 | in every reachable state the incident statement of an apply transaction passes the unique index, and a recovery finds an open incident |
| RowLocks.LockOrderIsSerialOrder | internal/worker/repository.go:102-108 | after every interleaving the checks of a monitor in the serial run are those of the transactions that lock its row and go on to commit, in the order of their locks |
| RowLocks.LogIsInLockOrder | internal/worker/repository.go:116-122 | after every interleaving the log of an existing monitor holds exactly those checks, in that order |
| RowLocks.LockReleasedInBetween | internal/worker/repository.go:102-108 | between two transactions locking the row of the same monitor the first one ends |
| RowLocks.SelectionExists | internal/worker/repository.go:46-58 | the claim query has an answer on every table, for every limit and every set of locked rows |
| RowLocks.LocksNeverDeadlock | internal/worker/repository.go:95-181 | in every reachable state each transaction can go on, is doomed by the counter's overflow, or waits for a row whose holder is itself not waiting |
| Progress.ApplyGoesThrough | internal/worker/repository.go:95-181 | an apply transaction whose row nobody has locked can run to its commit, which is one atomic check |
| Progress.ClaimGoesThrough | internal/worker/repository.go:40-93 | a claim can run to its commit whatever rows are locked, with any selection its query allows |
| Progress.RollbackLeavesNoTrace | internal/worker/repository.go:100 | a transaction can be rolled back at any time, and then it might as well never have begun |
| Progress.ApiGoesThrough | internal/monitor/repository.go:86-205 | a statement of the API is executed unless its row is locked |
| WorkerRepository.Repository.Earliest | internal/worker/repository.go:54 | a row that comes first by next check time |
| WorkerRepository.Repository.SelectDue | internal/worker/repository.go:46-58 | the query returns the first due unlocked rows, in order, as many as the limit allows |
| WorkerRepository.Repository.UpdateNextChecks | internal/worker/repository.go:75-86 | the loop reschedules exactly the selected rows and returns them with their new times |
| WorkerRepository.Repository.ClaimDueMonitors | internal/worker/repository.go:40-93 | the call claims the first enabled, unlocked monitors that are never checked or due, as many as the limit, sets their next check one interval after now and changes nothing else; it returns the stored rows, or fails and changes nothing |
| WorkerRepository.Repository.ApplyCheckResult | internal/worker/repository.go:95-181 | the call commits exactly the atomic meaning of a check, changes only the health of its monitor and returns an event that tells the truth, or fails and changes nothing, whichever statement fails |
| RunnerSafety.JobsConserved | internal/worker/runner.go:101-133 | in every reachable state claimed jobs are in hand, queued, with a worker, finished or dropped at cancellation, each exactly once; the queue is bounded and strictly first in first out |
| RunnerSafety.NotifiedOnce | internal/worker/runner.go:135-162 | in every reachable state no event has been handed to the notifier twice |
| RunnerSafety.EventsConserved | internal/worker/runner.go:139-160 | in every reachable state each event an apply call returned is with one worker, was handed to the notifier, or found no channel; none is lost in between or doubled |
| RunnerSafety.AppliedIsLogged | internal/worker/repository.go:116-122 | in every reachable state the log of a monitor holds as many checks as were committed, by whichever process |
| RunnerSafety.DisabledMonitorWindsDown | internal/worker/runner.go:107-113 | while a monitor stays disabled, checks of it that still commit are at most the copies in flight when it was disabled |
| RunnerSafety.InvKept | internal/worker/runner.go:36-162 | every step of the process, of other processes and of the API keeps all of this |
| RunnerLiveness.StepsDecreaseMeasure | internal/worker/runner.go:81-133 | after cancellation every step of the process decreases a measure, and no step of anybody else changes it |
| RunnerLiveness.ShutdownTerminates | internal/worker/runner.go:81-133 | so a cancelled process takes at most that many more steps |
| RunnerLiveness.SchedulerNeverBlocks | internal/worker/runner.go:101-116 | after cancellation the scheduler always has a step until it is done |
| RunnerLiveness.WorkerNeverBlocks | internal/worker/runner.go:118-133 | a worker has a step unless it is idle with an empty open queue and no cancellation |
| RunnerLiveness.NoDeadlock | internal/worker/runner.go:36-79 | a cancelled process without a step left has ended: scheduler and all workers are done and `Run` has returned |
| RunnerLiveness.FullQueueDrains | internal/worker/runner.go:107-113 | when the scheduler blocks on a full queue some worker has a step |
| RunnerLiveness.KeepsRunning | internal/worker/runner.go:81-133 | in every reachable state without cancellation or a reported error the scheduler has not stopped, nor has a worker, nor `Run` |
| RunnerLiveness.BatchThenTick | internal/worker/runner.go:89-98 | a batch that is finished or dropped is followed by the wait for the next tick |
| RunnerLiveness.SchedulerGoesRound | internal/worker/runner.go:81-116 | after a tick the scheduler can claim what its query selects, push all of it if the queue has room, and wait for the next tick |
| RunnerLiveness.JobRunsThrough | internal/worker/runner.go:118-162 | an idle worker can take the first job, check it with any result, record the result, hand a reportable event to the notifier and be idle again |
| RunnerLiveness.ErrorIffClaimBroke | internal/worker/runner.go:49-54 | in every reachable state an error is reported or about to be iff some claim failed otherwise than by cancellation |
| RunnerLiveness.NilMeansAllDone | internal/worker/runner.go:69-78 | `Run` returns nil only when the scheduler and all workers are done, because of a cancellation or a failed claim, and an error only if one was reported |
| RunnerLiveness.ErrorMustBeReturnedIff | internal/worker/runner.go:69-78 | with a reported error `Run` may return it, and must when it decides, iff not everything is done and the process is not cancelled |
| RunnerLiveness.NilIsFinal | internal/worker/runner.go:75-78 | once `Run` waits for the goroutines or has returned nil, no continuation returns the error |
| RunnerLiveness.NilDespiteError | internal/worker/runner.go:69-78 | a run with a reported error whose `Run` has returned ended with nil iff at some step `Run` left its `select` because everything was done or because it saw the cancellation |
| RunnerLiveness.ErrorCanBeLost | internal/worker/runner.go:49-53 | a run from the initial state that loses the error because everything is done |
| RunnerLiveness.ErrorCanBeLostToCancel | internal/worker/runner.go:75-77 | a run from the initial state that loses it to a cancellation, before everything is done |
| JointSystem.CommitIsStep | internal/worker/repository.go:88-92 | a commit that the process learns of is one step of the process machine, with the same effect on the tables |
| JointSystem.StepIsJoint | internal/worker/runner.go:36-162 | conversely every step of the process machine is a step of the joint system, by itself if it touches no table, else with any fitting commit |
| JointSystem.JointRunRefines | internal/worker/runner.go:36-162 | every run of the process on the statement-level database is an interleaving of statements and a run of the process machine, ending with the same tables |
| JointSystem.JointRunIsSafe | internal/worker/runner.go:101-162 | so jobs and events are conserved, no event is notified twice and nil means all done, when claims and applies take many interleaved statements |
| JointSystem.ApplyCallGoesThrough | internal/worker/runner.go:135-142 | a worker's apply call can run all its statements and commit unless its row is locked, and the worker goes on with the event |
| JointSystem.ClaimCallGoesThrough | internal/worker/runner.go:101-105 | the scheduler's claim call can run all its statements and commit, and returns what its query selects |
| Sessions.InvKept | internal/handler/auth.go:123-226 | every step of interleaved refreshes, logins and logouts leaves the right to continue a chain with one session or one request |
| Sessions.OneLiveSessionPerChain | internal/handler/auth.go:140-172 | in every reachable state each chain started by a login has at most one unrevoked session |
| Sessions.OneSuccessorPerSession | internal/auth/repository.go:78-92 | in every reachable state a session has at most one successor, of the same user and chain, and is itself revoked |
| Sessions.RevocationIsFinal | internal/auth/repository.go:78-92 | over any run sessions are never removed, reassigned or prolonged, and a revocation is never undone |
| Sessions.DeadChainStaysDead | internal/handler/auth.go:152-163 | once nobody can continue a chain, nobody ever can |
| Sessions.LogoutEndsChain | internal/handler/auth.go:175-200 | a logout ends the chain iff the session it names is still unrevoked or the chain was dead |
| Sessions.LogoutTooLate | internal/handler/auth.go:175-200 | a run of login, refresh and logout with the first token after which the chain is alive and its session can be refreshed |
| Sessions.UndisturbedRefresh | internal/handler/auth.go:123-173 | the steps of one refresh taken together have the effect proved of the handler, whichever token cannot be signed |
| Sessions.Repository.CreateSession | internal/auth/repository.go:59-67 | the new session can be refreshed by its user, by nobody else, until it expires; all others are as before |
| Sessions.Repository.RevokeSession | internal/auth/repository.go:78-92 | says whether the session was live; afterwards nobody can refresh or revoke it, all sessions are kept, and no other changes |
| Sessions.AuthHandler.IssueTokenPair | internal/handler/auth.go:202-226 | one new session exists and is live iff both tokens could be signed; none is created if the access token could not; all others are as before |
| Sessions.AuthHandler.Refresh | internal/handler/auth.go:123-173 | success iff the session is live, of the subject and both tokens are signed; the table is exactly the old one with that session revoked and one added; a refused token changes nothing |
| Sessions.AuthHandler.Logout | internal/handler/auth.go:175-200 | afterwards the session is not live, and nothing else has changed |
| Text.TrimSpaceExact | internal/alertchannel/service.go:114-136 | trimming gives a trimmed string, takes nothing but white space away from both ends, and leaves exactly the trimmed strings alone |
| Text.ToLowerExact | internal/alertchannel/service.go:115 | a string in lower case is an ASCII word iff it spells that word in whatever case |
| Channels.NormalizeExact | internal/alertchannel/service.go:114-136 | for every input: the type is one of two words in whatever case, or that is the error; then the trimmed address is non-empty or an accepted URL, or that is |
| Channels.NormalExact | internal/alertchannel/service.go:114-136 | the fixed points of normalisation are: one of two types, a trimmed address, non-empty or an accepted URL |
| Channels.NormalizationIsIdempotent | internal/alertchannel/service.go:114-136 | what normalisation returns is a fixed point |
| Channels.ChannelTableInvariant | migrations/0006_create_alert_channels.up.sql:12 | after any run every stored channel is normalised, and no two share user, type and address |
| Channels.TokensAreOneTime | internal/telegramlink/repository.go:25-63 | over any run a link token is consumed at most once, before its expiry, for its creator, and exactly the consumed tokens are marked used |
| Channels.ConsumptionLinksChat | internal/telegramlink/repository.go:32-60 | consumption succeeds iff the token is unused and unexpired; then in the same commit the creator has an enabled channel for the chat and nothing else changes; otherwise nothing does |
| Channels.NewTokenIsGood | internal/telegramlink/repository.go:17-23 | a token with a new hash can be consumed once, at any time before it expires, and links its creator; a known hash is refused and changes nothing |
| Channels.ChatIsLinked | internal/telegramlink/service.go:94-112 | the run that issues a token and consumes it in time leaves the creator's enabled channel and one link |
| ChannelServices.AlertChannelService.Create | internal/alertchannel/service.go:56-69 | success iff type and address are valid and no row has that user, type and address; then exactly that row with the given flag is added; each error exactly when it applies |
| ChannelServices.AlertChannelService.Prepare | internal/alertchannel/service.go:71-98 | an empty update, a missing channel and an invalid merge are each reported exactly when they apply; otherwise the normalised merge is returned |
| ChannelServices.AlertChannelService.Write | internal/alertchannel/repository.go:91-125 | not found iff not owned, duplicate iff another row has that user, type and address; no other row changes and no two rows come to share a key |
| ChannelServices.AlertChannelService.Delete | internal/alertchannel/repository.go:127-145 | success iff owned; then the row is gone, no other has changed, and its address can be added again |
| ChannelServices.TelegramLinkService.ConsumeLinkToken | internal/telegramlink/repository.go:25-63 | token and channel change together or not at all, whichever statement fails |
| ChannelServices.TelegramLinkService.LinkChat | internal/telegramlink/service.go:94-112 | links the trimmed chat iff the token is consumable; empty inputs and failures change nothing |
| Bot.HonestBatchCovers | internal/telegramlink/bot.go:85-90 | a batch of an honest server is exactly the known updates between the old and the new offset |
| Bot.EveryUpdateOnce | internal/telegramlink/bot.go:69-92 | with failed polls anywhere, the offset never goes back, no update is handled twice, and those handled are exactly the known ones the offset has passed |
| Bot.Bot.HandleBatch | internal/telegramlink/bot.go:85-90 | handles every update of the batch in order and moves the offset past those not behind it |
| Bot.Bot.Run | internal/telegramlink/bot.go:69-92 | the offset and the updates handled over a whole run of polls |
| Bot.NotACommand | internal/telegramlink/bot.go:201-209 | a text without words, or with another first word, is no /start command |
| Bot.BareCommand | internal/telegramlink/bot.go:210-212 | a command alone has no token |
| Bot.CommandWithToken | internal/telegramlink/bot.go:214 | the token is the second word, whatever white space is around it and whatever follows |
| Bot.LinkTokenRoundTrip | internal/telegramlink/bot.go:200-215 | the token of a deep link comes back unchanged from the /start command it sends |
| Pages.ListingIsOrderedSelection | internal/monitor/repository.go:100-128 | the listing holds exactly the selected rows, each once, strictly in order |
| Pages.PagesPartition | internal/monitor/repository.go:207-248 | the pages 1 to ceil(total/size) as served succeed and, put together, are the rows of the owner within the inclusive bounds, newest first and then by greater id; later pages whose offset fits are served empty |
| Pages.ServedPageIsTrueIff | internal/monitor/repository.go:114-121 | the page served is the true one iff the offset fits the machine integer or wraps to one past the end |
| Pages.HugePageRepeatsFirst | internal/handler/target.go:341-365 | a page number the handler accepts that shows the first page again |
| Pages.ParsePagination | internal/handler/target.go:341-381 | accepted iff the page is positive and the size within 1 to 100, with defaults 1 and 20; otherwise exactly which fields are reported, with which message |
| MonitorService.NormalizeExact | internal/monitor/service.go:207-234 | accepted iff the trimmed URL is non-empty and valid and the interval from 30 to 3600; which error otherwise; and what is stored |
| MonitorService.StoredParamsStayValid | internal/monitor/service.go:207-234 | validated parameters are a fixed point of validation, with an interval from 30 to 3600 |
| MonitorService.FirstPatchIsLost | internal/monitor/service.go:132-173 | of two patches that both read first, the earlier write is undone; the outcome is that of one after the other, in either order, iff the first changed only fields the second sets too |
| MonitorService.BothReadFirst | internal/monitor/service.go:137-158 | what a rename and a pause prepare to write when both read a new monitor: the condition fails |
| MonitorService.RenameIsLost | internal/monitor/service.go:137-172 | the run in which they write one after the other ends with the old name |
| MonitorService.Service.Create | internal/monitor/service.go:98-116 | success iff URL and interval are valid; then exactly one new row with the trimmed URL and name, the given interval and flag, unknown, due and created now; the URL error before the interval error, and nothing changes |
| MonitorService.Service.Prepare | internal/monitor/service.go:132-158 | success iff something is given, the row is owned and the merged URL and interval are valid, with every column of the result; each error exactly when it applies |
| MonitorService.Service.Write | internal/monitor/repository.go:166-185 | sets the four configured columns of an owned row; status, counter, schedule, check and creation times, all other rows and all other tables are as before |
| MonitorService.Service.Delete | internal/monitor/repository.go:187-205 | removes an owned monitor with all its logs and incidents; the rows, logs and incidents of others are as before |
| Notifier.Notify | internal/worker/notifier.go:56-96 | every webhook channel has exactly one attempt, every Telegram channel iff the token is configured, no other; each with its own answer, in order; the errors are exactly the refused attempts, in order |
| WorkerConfig.LoadConfigFromEnv | internal/worker/config.go:16-58 | whatever the environment says, the configuration satisfies what the runner needs and the tick is positive; and which clamp ever acts |

## Left out

- The goroutines of `Run` are modelled as a state machine over their steps, not as methods: Dafny has
  no concurrent methods. Its steps call the same functions that the repository's methods are proved against.
- The job in the queue is the id of the monitor: the rest of the claimed row only feeds the check, whose
  result is arbitrary here.
- Other worker processes appear as the jobs they hold and the statements they commit; their queues do not.
- The claim query is one statement on the committed rows at one moment; that Postgres rechecks a row that
  changed between the snapshot and its lock is not modelled, nor are locks other than those of monitor rows.
- Log order is commit order; `checked_at` is any integer, so the model covers clocks that disagree.
- Uuids are numbers that are never generated twice.
- Text encoding: an error message or reason that Postgres cannot store would make its insert fail; that is one
  of the failures the apply transaction may meet from outside.
- JointSystem.JointRunRefines: a call that returns success is matched with a committed transaction of the same
  operation; which connection belongs to which goroutine is not tracked beyond that.
- Parsing of SCHEDULER_TICK (`time.ParseDuration`), and when the ticker fires: a tick may come at any time.
- Bot.EveryUpdateOnce: assumes of the server that ids are positive and below the largest Go `int`, that a
  batch leaves out no known update below one it returns, and that no new update gets an id behind the offset.
- Claims.NoStarvation: counts claims that find the row unlocked, and assumes that claims are not made before the
  monitor fell due and that nothing is created or enabled ahead of it; each of these can delay it without bound.
- Sessions.AuthHandler.Refresh: one clock reading serves the expiry check and the revocation, and failing
  statements are left to `Sessions.Abort`, a step of the interleaved protocol.
- Loading a user's enabled channels is an oracle that finds some, none, or fails.
- HTTP checks, Telegram and webhook calls and their messages, retry delays, and the bot's replies.
- JWT parsing and signing, bcrypt, SHA-256, base64 and random tokens: parsing is an oracle, the hash any function.
- `url.ParseRequestURI` and `mail.ParseAddress`: an arbitrary predicate on the trimmed string; registration and
  login validation are left out with them.
- `strings.ToLower` is exact only as far as comparison with ASCII strings goes.
- Creating a link token beyond its row: the random token, the bot's name and the deep link.
- Deleting users, and with them everything they own.
- Statistics, timeline and uptime percentage, the time ranges and JSON of the handlers, health checks, the frontend.
