# Verification of the gocron scheduler core

A Dafny model of the two halves of gocron that rest on each other, with proofs about them.

* **The scheduling protocol** (`scheduler.go`, `executor.go`, `util.go`): one scheduler goroutine
  that owns the jobs and handles one event at a time, timers that fire into the executor, and the
  executor's dispatch goroutines and runners, in every mode, interleaving freely.
* **The calendar searches** (`job.go`): daily, weekly, monthly and one-time schedules, each of which
  promises the first scheduled instant after the last run.

Check it with `dafny verify dfyconfig.toml`.

## How the model is laid out

| file | modules | what it holds |
|---|---|---|
| `Times.dfy` | `Times` | instants, ordered lists of them, the helpers of `util.go` |
| `Gregorian.dfy` | `Gregorian` | the calendar behind `time.Date`: month lengths, day numbers, normalisation |
| `Zones.dfy` | `Zones` | a location with at most one forward jump, `time.Date` in it, and the run-after-transition helper |
| `Grids.dfy` | `Grids` | the specification of a calendar search: the least later slot of a residue class, and what iterating it enumerates |
| `DailyWeekly.dfy` | `AtTimes`, `DailyJobs`, `WeeklyJobs` | daily and weekly schedules |
| `Monthly.dfy` | `MonthlyJobs` | monthly schedules |
| `Midnights.dfy` | `Midnights` | exactly which midnights the monthly search needs, and what it does without them |
| `OneTime.dfy` | `OneTimeJobs` | one-time schedules |
| `Jobs.dfy` | `Jobs` | an internal job and the decisions the handlers take about it, as functions |
| `Scheduler.dfy` | `Worlds`, `Schedulers` | the scheduler as a class; each handler is proved to compute the corresponding function |
| `Drift.dfy` | `Drift` | one job through any sequence of handlers; `NextRuns` |
| `Executor.dfy` | `Executors` | the executor's goroutines as methods, proved to follow the program points of `Protocol` |
| `LimitMode.dfy` | `LimitModes`, `Limiters` | the two limiters and their runners: the state machine, and the class that implements it |
| `Protocol.dfy` | `Protocol` | scheduler and executor together as a state machine, and its inductive invariants |
| `Accounting.dfy` | `Effects`, `Counting`, `Spacing` | limited runs and interval-from-completion over whole executions |
| `Runs.dfy` | `Runs` | runs over whole executions: each at most once, none lost, reported truly, and removal only after the return |
| `Histories.dfy` | `Histories` | the records in the protocol's state are what its events did |
| `Beats.dfy` | `Beats` | the handlers as steps of `Drift`, and no drift in any execution |

Code that changes things step by step is a method of a class or a method with loops, proved against
a function of the old state; the functions then carry the invariants and whole-execution theorems.
`Schedulers.Scheduler` and `Protocol` share the functions of `Worlds`, and `Executors.Executor` is
proved to emit exactly what `Protocol`'s program points prescribe, so the state machine and the
imperative code cannot drift apart.

## Conventions

* Instants are nanoseconds since Go's zero time; zero is `ZERO` and lies before every real instant.
  `now` is read once per event, never goes back, and no timer fires early.
* Integers are unbounded; the wrap-around of `uint` intervals and of `time.Duration` is not modelled.
* A location has one forward jump of whole seconds shorter than 24 hours, or none (`gap == 0`). A jump
  of exactly 24 hours would escape the hour-minute-second comparison of the source. For a wall time
  inside the gap `time.Date` may choose either offset, separately for every wall time; the lemmas that
  exhibit a failure use the choice Go makes (`Zones.LooksUpAsUTC`).
* Schedules answer through a function per event. Fixed schedules use one function for ever; a random
  duration may use another function at each event, and since the arguments within one event strictly
  increase, a function is no restriction.
* A send on an unbuffered channel and the handler that receives it are one event. Timing updates are
  buffered and may arrive at any later time, in any order.
* A timing report carries the activation it is about, so that statements can name it; no handler reads it.
* Whether a limiter has room, a lock is granted or a before-function agrees is left open in
  `Protocol`; the limiters themselves are the subject of `LimitModes`.
* One start-to-stop epoch, no `Update`, and identifiers are not reused within the epoch.
* The per-job singleton runner is looked up and created in one step (executor.go:214-220 does it in
  two operations).
* The setups' guarantees (positive interval, ordered at-times, day ranges) are proved of the setups and
  assumed by the searches.

## Where the code and its documentation differ

The model follows the code.

* `WithStartAtGrace` (job.go:80-83, job.go:896-914) says a late first run without grace, or beyond it, is
  treated as exhausted; the code advances it past now (scheduler.go:474-486), and only drops the job
  when that fails. It also says the original first run is preserved; the code replaces it by the
  current time (scheduler.go:746-747).
* `WithStopDateTime` (job.go:986) allows a final run at the stop time; the code removes the job as soon
  as the next run is at or after it (scheduler.go:572-575).
* `selectExecJobsOutCompleted` (scheduler.go:611-614) is documented as never receiving skipped runs; it
  does receive them (executor.go:489-495) and only prunes.
* `daylightSavingsTimeRunAfterTransitionTime` (job.go:1274-1297) is right for gap times exactly when
  undoing the shift chosen by `time.Date` stays on the requested date; a gap at midnight breaks it
  (`Zones.AfterTransitionAcrossMidnight`).
* The handlers read a zero answer as the end of a schedule (scheduler.go:539-544), which daily and weekly
  jobs do not have; yet without Skip `dailyJob.next` and `weeklyJob.next` answer zero when every run of the
  next day or week was moved back across a gap to the last run or before, and a job whose runs are moved
  across midnight stops for good (`DailyJobs.StopsAcrossMidnight`, `WeeklyJobs.StopsAcrossMidnight`). The
  exact conditions are `DailyJobs.DailyJob.WithoutSkipIsZero` and `WeeklyJobs.WeeklyJob.WithoutSkipIsZero`.
* `monthlyJob.next` starts each later month at midnight on the first, and finds days counted from the end by
  going back from such a midnight (job.go:1545-1555, job.go:1559-1571). In a location whose jump
  comes after zero time, and under Skip, it answers the next listed instant for every job without days counted
  from the end and every start if and only if no first of a month has its midnight in the gap, and for every job
  at all if and only if, besides, no midnight is moved to the day before (`Midnights.MidnightsExactly`); where a first has no midnight, a job can stop for good
  (`Midnights.StopsAtMissingMidnight`) or, when that midnight is moved back, pass over a month under any policy
  (`Midnights.LateFirstPassesMonth`).
* Without Skip, across a jump, `monthlyJob.nextMonthDayAtTime` drops a gap time that was moved out of its month,
  before any adjustment, by the test meant for days beyond the month's end (job.go:1582-1586); so a month can
  lose its only run though every day has a midnight (`MonthlyJobs.MonthlyJob.MonthTestDrops`,
  `Midnights.MovedRunLost`).
* `weeklyJobDefinition.setup` takes any weekday number. A negative one is never reached, and one above 6 runs on
  into later weeks (`WeeklyJobs.WeeklyJob.FirstOnWeekday`).
* An empty at-time list passes every setup. Under Skip `dailyJob.next` and `weeklyJob.next` then search for ever
  (job.go:1424-1427, job.go:1484-1487); `DailyJobs.DailyJob.SearchEnds` and `WeeklyJobs.WeeklyJob.SearchEnds`
  say exactly when the search ends.
* `Job.NextRuns` slices out of range for a negative count when anything is listed (job.go:1797).

## Model

| member | source | states |
|---|---|---|
| Times.BinarySearch | util.go:125-128 | binary search agrees with linear search: first position not before the instant, and whether it is listed |
| Times.InsertNextScheduled | util.go:115-118 | the instant goes to the first position whose entry is not before it |
| Times.InsertedAscending | util.go:107-118 | inserting an unlisted instant keeps a strictly ascending list strictly ascending |
| Times.NextScheduledContains | util.go:120-128 | answers membership |
| Times.ScheduledTimeForRun | util.go:130-149 | the latest entry at or before the actual start, or the earliest entry when there is none |
| Times.PruneStaleScheduled | job.go:123-138 | keeps the entries after now, in their order |
| Times.UpcomingIsSuffix | job.go:123-138 | pruning an ascending list only cuts off a prefix and leaves it ascending |
| Times.RemoveDuplicatesSorted | job.go:678-686 | each value of an ordered list once, strictly ascending, none lost |
| Times.RemoveSliceDuplicatesInt | util.go:79-82 | in place: the returned front part holds every value of the slice once, strictly ascending |
| Gregorian.DateRoundTrip | job.go:1433-1445 | splitting a day into a date and handing it to `time.Date` with any day offset moves it by exactly that offset |
| Gregorian.MonthLengthPeriods | job.go:1535-1557 | month lengths repeat every 4800 months |
| Zones.Zone.DateInvertsWall | job.go:1433-1441 | an instant shows a wall time exactly when that time is outside the gap and `time.Date` yields the instant |
| Zones.Zone.NormalisedIsInGap | job.go:1439-1446 | the comparison of hour, minute and second detects exactly the wall times inside the gap |
| Zones.AfterTransitionUsesOldOffset | job.go:1274-1297 | for a gap time the adjusted instant is the requested wall time under the old offset if and only if undoing the shift stays on the requested date |
| Zones.AfterTransitionAcrossMidnight | job.go:1286-1297 | clocks that jump from UTC-5 to UTC-4 at midnight, in a zone whose readings are looked up as Go does: a 00:30 run is adjusted to another instant |
| Grids.IterationEnumerates | job.go:1409-1613 | iterating least-later-slot from any start visits, in strictly ascending order, only slots of the start's residue class and every such slot up to the last one visited |
| Grids.EveryCandidateIsReached | job.go:1409-1613 | every slot of the class is visited by a long enough iteration |
| Grids.ExhaustedMeansComplete | job.go:1535-1557 | when an iteration ends in zero it has visited the whole class |
| AtTimes.Convert | util.go:84-103 | accepted at-times come back complete and ordered; the first bad entry decides the error |
| AtTimes.FirstAtTime | job.go:1433-1458 | in any location and under every policy, the run of the first at-time in list order whose run comes after the last one, and no other; each policy's run is told by instants and offsets |
| AtTimes.RunAtIs | job.go:1439-1451 | the run of one at-time: the instant that shows it, or in the gap, under Default the instant `time.Date` chose, under Skip none, under RunAfterTransition the reading under the old offset unless the shift left the date |
| AtTimes.FirstRunIsLeast | job.go:1433-1458 | with a fixed offset, under Skip, or under any policy on a day with no at-time in the gap, that is the least instant of the day that shows a listed wall time and is after the last run |
| AtTimes.RunAfterTransitionKeepsOldOffset | job.go:1441-1451 | RunAfterTransition runs a gap time at the requested wall time under the old offset when the shift stayed on the date |
| AtTimes.NothingLeftOnlyInGap | job.go:1416-1428 | on a later day Skip finds nothing only while the gap reaches into that day |
| DailyJobs.Setup | job.go:417-439 | succeeds exactly on a positive interval and valid at-times, establishes what the search relies on, and reports at-time errors first |
| DailyJobs.DailyJob.NextDay | job.go:1433-1458 | the run of the first at-time of one day that comes after the last run; the least listed instant unless an at-time of that day was moved |
| DailyJobs.DailyJob.Next | job.go:1409-1430 | terminates and returns the least listed wall time after the last run on a day of its residue class, under Skip, with a fixed offset, and under any policy when no at-time of today or of the next day of the class lies in the gap; without Skip always the first at-time taken of today, or else of that next day |
| DailyJobs.DailyJob.SearchEnds | job.go:1423-1428 | under Skip, some day of the class has a run to find, however far ahead one looks, if and only if there is an at-time; otherwise the loop never ends |
| DailyJobs.DailyJob.WithoutSkipIsZero | job.go:1409-1458 | under the other policies the search answers zero if and only if today has no more runs and every at-time of the next day of the class lies in the gap and was moved back to the last run or before |
| DailyJobs.StopsAcrossMidnight | job.go:1409-1458 | such a jump, and a daily 00:30 run under either policy: the ordinary run of the day before is followed by the moved instant, and that one by zero, although later listed instants exist |
| DailyJobs.DailyJob.NeverExhausted | job.go:1409-1430 | with an at-time the schedule always has a next run, so zero is never the right answer |
| WeeklyJobs.Setup | job.go:451-483 | succeeds exactly on a positive interval, given weekdays and valid at-times; the weekdays are kept, with repetitions, and ordered; the result is what the search relies on exactly when all of them are 0 to 6 |
| WeeklyJobs.WeeklyJob.NextWeekDayAtTime | job.go:1493-1523 | for any weekday numbers and policy, the first at-time taken of the first listed weekday, from the offset day on, that has one; when the numbers name weekdays and none of those days has an at-time moved out of the gap, the least listed instant in the rest of the week |
| WeeklyJobs.WeeklyJob.Next | job.go:1469-1491 | for any weekday numbers: under Skip the answer of the first week of the class that has one, otherwise the first run taken of the rest of this week or else of the next week of the class; when the numbers name weekdays, and under Skip, with a fixed offset, or with no at-time of those weeks in the gap, the least listed instant after the last run in a week of its class |
| WeeklyJobs.WeeklyJob.SearchEnds | job.go:1483-1488 | under Skip, some week of the class has a run to find if and only if there are an at-time and a weekday number that is not negative; otherwise the loop never ends |
| WeeklyJobs.WeeklyJob.WithoutSkipIsZero | job.go:1469-1523 | under the other policies, and for any weekday numbers, the search answers zero if and only if the rest of this week has no more runs and every at-time of every reachable weekday of the next week of the class was moved back to the last run or before |
| WeeklyJobs.StopsAcrossMidnight | job.go:1469-1523 | such a jump on a Sunday, and a weekly Sunday 00:30 run: the ordinary run of the Sunday before is followed by the moved instant, late on Saturday, and that one by zero, although later listed instants exist |
| WeeklyJobs.WeeklyJob.NeverExhausted | job.go:1469-1491 | with a weekday and an at-time the schedule always has a next run |
| MonthlyJobs.Setup | job.go:519-563 | succeeds exactly on a positive interval, given days all within 1..31 or -31..-1 and valid at-times; the days are separated by sign, each once |
| MonthlyJobs.NegativeDaysNeverAlias | job.go:1559-1571 | -n is the n-th day from the end when the month is long enough and otherwise a number beyond the month's end |
| MonthlyJobs.DayCountedBack | job.go:1559-1571 | counting back from a midnight that exists finds the right day if and only if the midnight counted back to is not both in the gap and moved to the day before |
| MonthlyJobs.MonthlyJob.HandleNegativeDays | job.go:1559-1571 | in any location the days found by going back from midnight on the first of the next month, merged with the others and ordered; where that midnight exists and none is moved to the day before, a day of the month is in the list exactly when it is listed from either end |
| MonthlyJobs.LongMonthAhead | job.go:1535-1557 | a stride that is not whole years meets a 31-day month within twelve strides |
| MonthlyJobs.MonthlyJob.FourHundredStridesDecide | job.go:1535-1557 | if any month of the class, however far, holds a listed day then two different ones of the next 400 strides do, so the cut-off loses nothing even when a gap empties one of them |
| MonthlyJobs.MonthlyJob.NextMonthDayAtTime | job.go:1573-1613 | in any zone and under every policy, the run of the first at-time of the first listed day not before the start's date that `time.Date` keeps in the month and that comes after the start, or from it on after the first pass, and no other |
| MonthlyJobs.MonthlyJob.MonthRunIs | job.go:1582-1598 | the run of one at-time of one day of the list, days beyond the month's end included, told by instants, offsets and the bounds of the month |
| MonthlyJobs.MonthlyJob.FirstOfMonthIsLeast | job.go:1573-1613 | with a fixed offset, under Skip, or with at-times that never lie in the gap, that is the least listed instant in the rest of the month |
| MonthlyJobs.MonthlyJob.MonthTestDrops | job.go:1582-1598 | a listed day of the month has no run at an at-time if and only if that time lies in the gap and is skipped, or was moved past either end of the month |
| MonthlyJobs.MonthlyJob.Next | job.go:1535-1557 | in any location and under any policy, the answer of the last run's month or of the first of at most 400 strides that has one, strides and runs told by themselves; with a fixed offset, under Skip, or with at-times that never lie in the gap, where later months begin with a midnight (and, given days from the end, no midnight is moved to the day before), the least listed instant after the last run in a month of its residue class, and zero if and only if there is none at all |
| MonthlyJobs.MonthlyJob.SearchIsNext | job.go:1535-1557 | the same as a statement about the strides themselves: the first stride that finds a run finds the least one, and 400 empty strides mean there is none |
| Midnights.MonthsBeginExactly | job.go:1535-1557 | from any last run: under Skip every search without days counted from the end answers the next listed instant, or zero when there is none, if and only if every later month begins with a midnight |
| Midnights.MidnightsExactly | job.go:1535-1571 | for a whole location whose jump comes after zero time, over all starts: the same, and with days counted from the end allowed if and only if, besides, no midnight is moved to the day before |
| Midnights.StopsAtMissingMidnight | job.go:1535-1557 | from any start before a first without midnight, however it is read, and at any interval that leads there: a job on the first at midnight is answered zero although its schedule goes on |
| Midnights.CountsToWrongDay | job.go:1559-1571 | where a midnight inside a month is moved to the day before: a run late on that day, given as a day from the end, is not what the search answers just before the jump |
| Midnights.LateFirstPassesMonth | job.go:1535-1557 | wherever the midnight of a first is moved to the day before, under any policy and from any start since the 15th of the month before: the run of the 15th at noon, though listed and in no gap, is passed over |
| Midnights.MonthPassedOver | job.go:1535-1557 | an instance, with the instants: clocks that jump from UTC-5 to UTC-4 at midnight on 1 February; the run of 15 January at noon is followed by that of 15 March |
| Midnights.MovedRunLost | job.go:1573-1613 | clocks that jump two hours at ten past midnight on 1 February, every midnight there: without Skip the month test drops the 00:30 run of 1 February, and that of 1 January is followed by that of 1 March |
| OneTimeJobs.Setup | job.go:650-676 | rejects exactly when nothing is left to run; otherwise keeps each distinct input after now once, ascending, and starts with the first |
| OneTimeJobs.OneTimeJob.Next | job.go:1632-1644 | the least listed instant after the last run, zero if there is none |
| OneTimeJobs.VisitsEveryInputOnce | job.go:650-676 | iterating from setup's now until zero visits exactly the kept instants, once each, in order |
| Jobs.AdvancePastNowOrbit | scheduler.go:402-428 | for an arbitrary next function the loop ends at the first orbit element not before now, or gets stuck before it |
| Jobs.AdvancePastDuplicatesOrbit | scheduler.go:429-442 | likewise for the first orbit element that is not listed |
| Jobs.AdvanceIsLeavingOff | scheduler.go:402-428 | an answer is the loop's if and only if the orbit leaves off there: the first element not before now, or none because the orbit was stuck first |
| Jobs.AdvanceDurationClosedForm | scheduler.go:414-428 | for a fixed duration the loop rounds up to a whole number of intervals |
| Jobs.FirstRunResolution | scheduler.go:722-764 | exactly one of drop, immediate dispatch and one armed timer, decided by lateness, grace, stop time and the orbit; an armed instant is not before now |
| Jobs.RescheduleIsNew | scheduler.go:539-575 | a rescheduled instant is not listed, not past and before any stop time |
| Jobs.RescheduleExactly | scheduler.go:492-579 | for any next function, in full: the orbit starts at the schedule's first answer to the last listed entry, else the start time (with interval from completion the last run, else the start time, else now); its first element neither past nor listed is armed if and only if no stop time is reached or comes first; zero exhausts the job; anything else removes it |
| Schedulers.Scheduler.AdvancePastNow | scheduler.go:414-428 | the loop terminates for every next function and computes the function of `Jobs` |
| Schedulers.Scheduler.AdvanceNextPastDuplicates | scheduler.go:433-442 | likewise |
| Schedulers.Scheduler.SelectRemoveJob | scheduler.go:396-400 | the job and its waiting timer disappear, nothing else |
| Schedulers.Scheduler.FindScheduleFrom | scheduler.go:510-537 | the instant rescheduling starts from, in spite of the sort on the way |
| Schedulers.Scheduler.SelectExecJobsOutForRescheduling | scheduler.go:492-599 | keeps every list strictly ascending; told by the schedule's orbit, it lists the instant, arms one timer for exactly it and stops the waiting one, or drops the job with its waiting timer, or changes nothing when the first answer is zero; other jobs are untouched |
| Worlds.OnRescheduleExactly | scheduler.go:492-599 | the same of the handler as a function, which the protocol uses |
| Schedulers.Scheduler.UpdateNextScheduled | scheduler.go:601-608 | only prunes the job's list, which stays ascending |
| Schedulers.Scheduler.SelectExecJobsOutCompleted | scheduler.go:615-649 | prunes; a skipped run changes nothing else; otherwise the count grows under a limit and the last run is now unless the runs are used up |
| Schedulers.Scheduler.SelectJobTimingUpdate | scheduler.go:654-680 | records the given instants, each in its own field, and nothing else; asks for removal exactly for a finished run of a job that has used up its runs |
| Schedulers.Scheduler.FirstRunOrGrace | scheduler.go:474-486 | fires at once exactly when the run is late by no more than the grace; otherwise it arms the first orbit element not before now, and drops the job only when the orbit is stuck before that |
| Schedulers.Scheduler.PrepareFirstRun | scheduler.go:722-764 | does one of drop, dispatch, arm; the list then holds exactly the resolved instant, so there are no catch-up entries |
| Schedulers.Scheduler.SelectNewJob | scheduler.go:770-787 | stored as it is before start; afterwards its first run is resolved and a dropped job is not kept |
| Schedulers.Scheduler.SelectRunJobRequest | scheduler.go:368-392 | a registered job gets one dispatch that owes no reschedule; the scheduler's jobs are untouched |
| Schedulers.Scheduler.SelectStart | scheduler.go:807-827 | keeps exactly the jobs whose first run is not dropped; each has one new timer or dispatch, for exactly the one instant it lists, and nothing else is new |
| Schedulers.SortingAgainIsIdle | scheduler.go:524-532 | sorting an ascending list returns it unchanged |
| Drift.StepKeepsAscending | scheduler.go:492-649 | no handler disturbs the strict order of a job's listed instants |
| Drift.NoDrift | scheduler.go:492-827 | for a fixed-rate duration job, through any sequence of reschedules, completions, prunes and restarts, every listed instant differs from the current start time by a multiple of the duration, and the start time only by multiples unless a first run fires at once |
| Beats.EventFollows | scheduler.go:492-680 | every event of the protocol leaves a registered job alone, removes it, or acts on it as exactly one step of `Drift` |
| Beats.BeginIsStep | scheduler.go:722-787 | a first run resolved at start-up or registration is `Drift`'s start step of that job, and touches no other |
| Beats.NoDriftInExecution | scheduler.go:492-787 | in every execution of the protocol a job keeps its registration's configuration and start time while it is registered, and every instant listed for a fixed-rate one is a whole number of intervals from that start time |
| Drift.NextRuns | job.go:1784-1819 | for any count, the array-filling loop computes the specified list, and slices out of range exactly for a negative count with something listed |
| Drift.NextRunsSound | job.go:1784-1819 | listed entries first, then each entry the schedule's answer to the one before, strictly ascending, none at or after the stop time, and short only when the schedule ends or reaches the stop time |
| Drift.NextRunsPrefixStable | job.go:1784-1819 | asking for more runs extends the shorter answer |
| Protocol.InvAlways | executor.go:106-569 | all protocol invariants hold in every state of every execution |
| Protocol.OneMessagePerActivation | executor.go:281-293 | in every mode and interleaving an activation sends at most one reschedule message, and one made by RunNow sends none |
| Protocol.ExactlyOneChain | executor.go:157-569 | a registered job that is not cancelled, exhausted or past its stop time has exactly one armed timer or goroutine that will still reschedule it |
| Protocol.RescheduleGoesForward | scheduler.go:492-599 | when a reschedule is handled the old timer has already fired; the new instant is not past, before the stop time, above every listed entry, and no earlier than the instant armed before |
| Protocol.ArmedNeverDecreases | scheduler.go:492-599 | the instants armed for a job never go back over an epoch |
| Executors.Executor.SendOutForRescheduling | executor.go:281-293 | one message if the flag is set and a receiver is there; the flag is cleared unless cancellation prevented it |
| Executors.Executor.RunJob | executor.go:425-569 | sends and does exactly what the protocol prescribes for a run, for every outcome of locks, before-function and cancellation |
| Executors.Executor.Dispatch | executor.go:157-272 | the dispatch goroutine does exactly what the protocol prescribes, in every mode, with the job fetched in one state and the run's contexts and stop time looked at in any other; what that is, mode by mode, is stated by the next three rows |
| Executors.LimitModeDispatches | executor.go:163-198 | in limit-reschedule mode the activation is handed over, with its flag, if and only if there is room, and otherwise only rescheduled; in limit-wait mode it is always handed over once, after the reschedule and then without the flag |
| Executors.SingletonDispatches | executor.go:207-254 | a busy runner still queues in singleton wait mode and turns away in reschedule mode; the reschedule follows, or is left to the runner with interval from completion |
| Executors.OrdinaryDispatches | executor.go:255-272 | any other job is run by the goroutine, unless it is gone or the executor cancelled |
| Executors.DispatchMeetsLimiter | executor.go:166-198 | with the limiter's own room: handed over if and only if the mode is to wait or a slot is free of accepted, queued and handled dispatches, and then the limiter has it on offer |
| Executors.Executor.ServeLimitMode | executor.go:319-365 | a limit-mode runner's turn does what the protocol prescribes for a queued activation, again with the run's checks in a state of their own |
| Executors.Executor.ServeSingleton | executor.go:390-416 | likewise for a singleton's own runner, which clears the flag unless rescheduling waits for completion |
| Executors.RunTrace | executor.go:425-569 | the order of a run's messages, whichever of them cancellation loses: rescheduled and reported before running, or afterwards with interval from completion; a run without lock or refused never runs, is not counted, yet is rescheduled; one past its stop time, gone or cancelled does nothing |
| Executors.SendsAtMostOnce | executor.go:281-293 | a goroutine sends at most one reschedule message, and none without the flag, whatever happens |
| Executors.GoroutineSendsAtMostOnce | executor.go:157-423 | neither does a dispatch goroutine or a runner's turn, whatever becomes of the job between its fetch and the run's checks |
| Executors.OneRescheduleEndToEnd | executor.go:157-423 | in every mode an activation and the runner's turn it leads to send exactly one reschedule message when every message is delivered and the job is there and not stopped or cancelled where that is looked at: at the dispatch, at the runner's fetch and at the run's checks |
| LimitModes.InvAlways | executor.go:315-374 | the limiter's invariants hold in every state of every interleaving |
| LimitModes.SlotsAccounted | executor.go:166-189 | slots held = accepted but not queued + queued + in a runner's hands, never above the limit; refused only when all are so accounted for; while not cancelled every accepted dispatch has an idle runner waiting for it |
| LimitModes.ReleaseNeverBlocks | executor.go:345-369 | the receive that gives a slot back always finds one |
| LimitModes.NothingQueuesBehindSingleton | executor.go:227-246 | in reschedule mode nothing is accepted or queued while a singleton's runner has the job in hand |
| LimitModes.SingletonsUnderLimit | executor.go:331-364 | the shared set is exactly what the runners claim, each claim held once, and at most `limit` runs are in progress |
| LimitModes.SingletonRunsOnce | executor.go:327-364 | two runners whose last fetch said that the job is a singleton never both run it, and in a shared pool the one that does holds the claim |
| LimitModes.OthersRunFreely | executor.go:327-364 | a runner with another job, or with its own job's queue, neither claims nor is held back by a claim |
| LimitModes.RunsWhatItTook | executor.go:319-364 | what a runner has in hand is what was at the head of the queue when it last received from it |
| LimitModes.JobInHandIsRun | executor.go:319-364 | a job in hand is run unless it is gone, runs as a singleton with another runner, or the executor is cancelled, and a run is left only when it returns |
| LimitModes.NothingLostInQueue | executor.go:173-197 | every accepted dispatch is offered, queued or taken, once, and the queue is served in order |
| Limiters.Limiter.StartRunners | executor.go:146-155 | as many idle runners as the limit, the first time only |
| Limiters.Limiter.Dispatch | executor.go:166-198 | takes a slot or turns the dispatch away, the latter only when every slot is accounted for |
| Limiters.Limiter.Claim | executor.go:331-356 | refused exactly when another runner holds the claim |
| Limiters.Limiter.Release | executor.go:366-369 | the runner is idle again and exactly one slot is given back |
| Effects.TokensAccounted | executor.go:157-569 | after any event each goroutine or timer is untouched, the one moved on, a queued copy of it, or a new activation |
| Counting.CountInvAlways | scheduler.go:615-680 | the run-count invariants hold in every state of every execution |
| Counting.LimitedRunsAccounting | scheduler.go:615-680 | a limited job's run count is its count at registration plus the non-skipped completions handled since, each activation once; a job whose removal was asked for has used up its runs and some run reported finishing; nothing but a completion report counts |
| Runs.ActivationRunsOnce | executor.go:518-552 | in every execution no activation begins its run twice or after its return, and none returns twice or without beginning |
| Runs.NoRunLostInExecution | executor.go:157-569 | an activation that may still run keeps that chance until its function returns or one of the listed causes ends it: turned away for want of room in a reschedule mode, job gone, stop time over, executor cancelled, lock or before-function refused, singleton running elsewhere, timer stopped with the job |
| Runs.ReportsAreTrue | executor.go:518-552 | in every execution a report with a start time is of a run announced at that time and not returned then, one with a completion time of a run whose function had returned by then, and each is one or the other |
| Runs.RemovalAfterReturn | scheduler.go:664-680 | a removal is asked for if and only if a report of completion finds the runs used up, and then the function has returned in the reported run, earlier in the execution |
| Histories.RecordsAreTrue | scheduler.go:368-599 | in every execution messages sent, RunNow activations, counts at registration, exhausted jobs and armed instants are recorded by their own event only, and say what it did |
| Spacing.RestBetweenRuns | executor.go:558-568 | with interval from completion and no limit mode, RunNow or used-up run limit, a run starts at least the (minimum) duration after the last return of the job's function, skipped runs in between or not and cancelled or not, and no other run is in progress |
| Spacing.ReturnsAreRecorded | executor.go:524-530 | the recorded instant is that of the job's last return and changes at returns only |
| Spacing.RearmWaits | scheduler.go:510-523 | a reschedule from the last run arms no earlier than the rest after it |

## Left out

- `cronJob.next` and crontab parsing rest on a library that is not part of this model; a cron schedule is an abstract next function.
- Task reflection, UUIDs, loggers, monitors, event-listener bodies, electors and lockers: their outcomes are free choices of the model.
- `executor.stop`, wait groups, stop timeouts, `StopScheduler` and shutdown: one epoch ends with cancellation; a restarted epoch is covered only for one job's beat and for start-up itself.
- `Update` and removal by tags: the one is outside the epoch assumption, the other repeats the removal handler.
- Public getters, option setters, request timeouts and error-code mapping: they add only easy members.
- Liveness and select fairness: the theorems say what can never happen, not that something eventually does.
- A bound of `limit` executions under `WithLimitedRuns`: it is not true, because removal waits for a completion and runs can overlap.
- Never arming the same instant twice: it is not true, because a prune at exactly the fire instant can come before the reschedule.
- DailyJobs.DailyJob.Next: without Skip, when an at-time of today or of the next day of the class lies in the gap, the least instant is not stated, because gap times are moved past or before listed ones; there it states which run of which day is taken. Skip needs an at-time, since without one the source searches for ever (`DailyJobs.DailyJob.SearchEnds`).
- WeeklyJobs.WeeklyJob.Next: the same two restrictions; Skip also needs a weekday number that is not negative, and least instant needs numbers that name weekdays.
- MonthlyJobs.MonthlyJob.Next: least instant is stated for fixed offsets, under Skip and for at-times that never lie in the gap, where the midnights it needs are there, because without them it is not true (`Midnights.MidnightsExactly`); elsewhere it states which run of which stride is taken.
- MonthlyJobs.MonthlyJob.HandleNegativeDays: where the month's end has no midnight, or one is moved to the day before, it states only what is computed.
- WeeklyJobs.WeeklyJob.NextWeekDayAtTime: for numbers that name no weekday it states which run is taken, not that it is the least of anything.
- Zones.AfterTransitionUsesOldOffset: one forward jump of whole seconds below 24 hours; backward jumps leave nothing to adjust.
- Executors.Executor.RunJob: elector, locker and job locker are one outcome, and the deferred unlock and listener calls have no effect in the model.
- Protocol.ExactlyOneChain: a timer goroutine that is still sending when the executor stops may survive into the next epoch; the statement covers one epoch.
- Spacing.RestBetweenRuns: says nothing in limit mode, after a RunNow or once the run limit is used up, because the first two can start a run at any time and the last one stops recording last runs.
