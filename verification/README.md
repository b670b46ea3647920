# A verified model of the punctual scheduler

punctual is a cron-like daemon. It claims each fire of a job by inserting a row into a
SQL store, spawns the job, and recovers from the store after a crash. This project models
the daemon, its store and the smaller algorithms beside it in Dafny, and proves what they
keep.

## How the model is built

* **The tables** (`models.dfy`, `store.dfy`). Every SQL statement on `runs` and
  `job_clock` is one function on a map; the class `Store` executes the statements.
* **The lifecycle** (`lifecycle.dfy`). One daemon is a step relation. A step is one store
  statement with the in-memory bookkeeping that follows it, or an event of the
  environment: a task starting, its process ending, a resume, a drain, a crash. A block
  between two awaits is not interleaved, so what a block still owes is a continuation; a
  crash may strike in any state, so between any two statements, and loses the
  continuation and the tasks. The state also carries history: spawns per row, where each
  attempt came from, and the health updates.
* **Its invariants and theorems** (`invariants.dfy`, `history.dfy`, `theorems.dfy`). Every
  result is about all runs of the relation from an empty store, with any number of
  crashes and restarts.
* **The daemon** (`scheduler.dfy`, `rules.dfy`, `effects.dfy`). The class `Scheduler` has
  the source's fields and one method per block. A ghost trace records each statement; a
  method can only extend it by a step the relation allows, so every theorem about runs
  holds of the object. Beside that, each method states its exact effect on the tables,
  the tasks and the cursors: as a function of Rules, and in Effects on the columns, with
  every condition, comparison and instant written out.
* **The trigger gate** (`gate.dfy`) and its read-only twin (`introspect.dfy`).
* **Lost retries, orphans, progress** (`losses.dfy`, `orphans.dfy`, `progress.dfy`). What
  every ended attempt is owed and when a crash takes it away; the runs of the daemon read
  together with the set of job processes alive in each state; and from every state of
  every run a way on to where no row is left in hand.
* **Changing configurations** (`removed.dfy`). The same steps over restarts and reloads
  that take jobs out and bring them back, with the rows of unknown jobs closed.
* **Schedules and catch-up** (`schedule.dfy`), **leases** (`leases.dfy`), **the dependency
  graph** (`graph.dfy`) and **reload** (`reload.dfy`), **durable steps** for attempts that
  follow one another (`steps.dfy`) and for attempts that overlap (`overlaps.dfy`),
  **timestamps** (`timestamps.dfy`).

The theorems about rows are stated for `cluster=False`. The lease protocol is proved on
its own, for any number of daemons.

## Where the code and its documentation part

The model follows the code. Where a promise fails, the condition under which it holds is
proved to be exact.

* `docs/DESIGN.md` (O2b) sends a CLAIMED row found at start-up to RETRYING; the code
  launches it as it is (`src/punctual/scheduler.py:302-305`).
* The same section adopts a live idempotent orphan; the code leaves it running, marks the
  row LOST and applies `on_lost` (`src/punctual/scheduler.py:321-339`). And a process
  whose pid was not recorded before the crash is not looked for at all. So no attempt is
  spawned twice, but the process of an attempt may run beside that of its retry. At a
  recovery this can happen if and only if the process lives and recovery spares it (the
  job is idempotent, or the row has no pid) and the job retries lost runs, is enabled and
  has a slot (`Orphans.OverlapIff`). Over all runs it is decided by the configuration
  alone: `on_lost = "retry"` is enough, idempotent or not, and so is idempotence when
  `on_lost` is not given (`Orphans.EverOverlapsIff`).
* A crash between an outcome and the retry row or the health update it calls for loses
  that retry or that count, for good, and nothing else does (`Losses.CompleteIff`).
* Recovery closes the row of a job that was removed from the configuration. A row waiting
  for a retry keeps its state but gets a finish time, so once its job is back, a crash
  can leave it CLAIMED or RUNNING where no recovery ever looks
  (`Removed.ForgottenForGood`). Closing a row can come to this if and only if the row was
  waiting (`Removed.ForgottenIff`).
* `docs/DESIGN.md` calls the fence a monotonic counter; a release deletes the row, so the
  fence starts again at 1. The fences of a run rise if and only if no acquire follows a
  release that deleted the row (`Leases.FencesRiseIff`).
* A leader that stalls inside a block beyond its lease is not stopped
  (`Leases.StalledLeaderStillActs`). A rival takes over beside it if and only if the
  second in which its hold ends is past (`Leases.RivalTakesOverIff`).
* Losing the lease stops the tick loop, but not the catch-up tasks: they look at the drain
  flag only (`src/punctual/scheduler.py:419-427`), so a daemon on standby goes on claiming
  missed fires beside the new leader (`Leases.SupersededStillClaims`). It can claim if and
  only if it has fires left to replay and is not draining (`Leases.SupersededClaimsIff`),
  and no more often than that number (`Leases.ReplaysAreSpent`).
* On a folded clock `fires_between` promises a wall-clock slot once, but it drops
  consecutive repeats only: with another slot in between, its list alone holds a slot
  twice (`Schedule.ListHoldsASlotTwice`), and the tick loop fires a second showing in any
  case (`Schedule.FoldFiresTwice`). However the loop ticks, no slot fires twice if and
  only if what catch-up lists and all fires after its cursor are on slots of their own
  (`Schedule.SlotsFireOnceIff`). For neighbours only, the conditions are
  `Schedule.SlotsRepeatIff` (every fire) and `Schedule.NeverRepeatsIff` (every series of
  ticks).
* `reload` can close a dependency cycle, because changed jobs keep their old edges. It is
  safe for every valid new configuration if and only if no running job names an upstream
  that is not running (`Reload.ReloadIsSafeIffClosed`), and a reload can itself break that
  condition (`Reload.TwoReloadsCanCycle`).
* A step function is to run once per fire, and to give the same answer on run and on
  replay. As long as attempts follow one another the second holds
  (`Steps.SameAsUninterrupted`), and the first does if and only if no attempt ends inside
  a call and no call fails (`Steps.ExactlyOnceIff`). But attempts can overlap, since an
  orphan may run beside its retry. Then both can call a function before either records
  an answer, and the second goes on with an answer that is not the record's
  (`Overlaps.TwoAttemptsCallTwice`). Over all interleavings every function is called once
  if and only if no answer is lost and no call of a step begins while another attempt is
  inside one (`Overlaps.OnceIff`), and every answer is the record's if and only if no
  commit finds another payload on record (`Overlaps.HonestIff`).
* Stored timestamps keep whole seconds, so a retry may start early, by less than a second
  (`Timestamps.DueWithinASecond`). It is never early if and only if its `not_before` is a
  whole second (`Timestamps.NeverEarlyIff`).

## Model

| member | source | states |
|---|---|---|
| Theorems.NeverSpawnedTwice | src/punctual/scheduler.py:293-339 | over any run, crashes and restarts included, a (job, fire, attempt) is spawned at most once |
| Theorems.SpawnsByState | src/punctual/scheduler.py:747-768 | a row that is CLAIMED, RETRYING, SKIPPED or absent was never spawned; one that succeeded or timed out was spawned exactly once |
| Theorems.SettledFireNeverRunsAgain | src/punctual/scheduler.py:643-661 | once a fire is settled (final row, no later attempt, no block that owes one) no attempt of it is spawned ever again |
| Theorems.RetryChainsAreWellFormed | src/punctual/scheduler.py:627-648 | a fire's attempts are 1..n; each below another failed, timed out or was lost; n is at most max(max, 0) + 1 plus the lost attempts below it |
| Theorems.MemoryAgreesWithStore | src/punctual/scheduler.py:747-804 | between blocks of a running daemon the CLAIMED and RUNNING rows are exactly those of its unfinished tasks |
| Theorems.DrainLeavesNothingOpen | src/punctual/scheduler.py:110-125 | after a completed drain every row is final or RETRYING |
| Theorems.CleanStartRecoversNothing | src/punctual/scheduler.py:293-308 | a start on such a store writes no run row and launches no task while it recovers |
| Theorems.HealthOncePerFire | src/punctual/scheduler.py:665-711 | the breaker is updated at most once per fire, over all attempts and crashes |
| Theorems.HealthCountsFinalOutcomes | src/punctual/scheduler.py:643-661 | an update is about a settled row, and counts as a failure exactly if that row failed, timed out or was lost |
| Theorems.BreakerIsTheTrailingCount | src/punctual/scheduler.py:560-718 | the stored counter is the number of failed fires since the last success or resume; the job is quarantined exactly when that reaches its threshold; a job that is not quarantined has no skipped fires on record |
| Theorems.TriggersAreConserved | src/punctual/scheduler.py:476-522 | every attempt of a triggered job that no operator started belongs to a fire at which some upstream succeeded or finally failed |
| Theorems.DownstreamNeverOutnumbersUpstream | src/punctual/store.py:446-460 | a downstream job has no more own fires than its upstreams have distinct fire times, whatever `last_fire` does |
| Theorems.SkipIsNeverPremature | src/punctual/scheduler.py:524-558 | a skip, or a run despite a failure, reacts to the newest run of that upstream, with no retry pending, and that fire never gets another attempt |
| Theorems.RowsOnlyClimb | src/punctual/models.py:76-89 | every step leaves a row where it is or moves it from RETRYING to CLAIMED, from there to RUNNING, or on to an outcome or LOST; no other move of the table is ever made |
| Theorems.FiresFinish | src/punctual/scheduler.py:613-648 | what a fire can go through is bounded: its rows are created and moved at most four times per attempt, over at most the policy's attempts plus one per loss |
| Progress.EveryRowCanFinish | src/punctual/scheduler.py:747-804 | from every point of every run there is a way on, without a crash, to a living daemon with no CLAIMED or RUNNING row; each row that was one is final |
| Theorems.WithoutCrashesAttemptsAreBounded | src/punctual/scheduler.py:643-648 | without crashes no attempt is lost and a fire has at most max + 1 attempts |
| Losses.CompleteIff | src/punctual/scheduler.py:643-661 | over any run every ended attempt was given its retry or its count if and only if no crash struck between the outcome and that statement |
| Losses.NothingIsMissed | src/punctual/scheduler.py:334-339 | without such a crash an ended attempt has a successor exactly if it failed or timed out within `max`, or was lost and `on_lost` (by default: idempotence) retries it; and it is counted exactly if it has none |
| Losses.CompleteStep | src/punctual/scheduler.py:627-648 | the account stays complete over a step exactly if the step does not cut a block off, and what is once missing stays missing |
| Orphans.OverlapMeans | src/punctual/scheduler.py:310-339 | two attempts of a fire alive at once: the older is LOST, was spared by recovery, and its job retries lost runs by `on_lost` or, without one, by being idempotent |
| Orphans.LostAlive | src/punctual/scheduler.py:333-339 | a LOST row with a live process was declared lost by a recovery at which the process lived |
| Orphans.OverlapIff | src/punctual/scheduler.py:310-339 | at a recovery an overlap lies ahead if and only if the process lives, is spared, and the job retries lost runs (by `on_lost` or, without one, by being idempotent) and can be swept |
| Orphans.EverOverlapsIff | src/punctual/models.py:150-155 | some run of the daemon overlaps two attempts of a job's fire if and only if its `on_lost` is retry, or not given and the job idempotent, and it can be swept |
| Theorems.MoveRaisesLevel | src/punctual/scheduler.py:627-648 | every creation or move of a fire's row raises the fire's level (attempt first, then row state) |
| Theorems.EveryStateIsSound | src/punctual/scheduler.py:75-97 | the invariants of rows, tasks, spawns, retries, health, breaker and triggers hold at every point of every run |
| Invariants.StepWritesOneRow | src/punctual/models.py:244-248 | a step writes at most one row, as a first claim or skip, a retry above the attempt just closed, or a move the transition table allows |
| Invariants.CoreKept | src/punctual/scheduler.py:747-804 | every step keeps the agreement of rows, tasks and spawns |
| History.SettledKept | src/punctual/scheduler.py:643-661 | no step touches a settled row or gives its fire another attempt |
| History.NewestIsUnique | src/punctual/store.py:439-444 | a fire has one newest attempt |
| History.BreakerKept | src/punctual/scheduler.py:560-575 | every step keeps the breaker equal to the trailing count |
| Models.Run.TransitionTo | src/punctual/models.py:244-248 | a move happens exactly when the table allows it; a refused one changes nothing |
| Models.ComesFrom | src/punctual/models.py:76-89 | the table by target: claimed from pending or retrying, running from claimed, an outcome from running, lost from either of those, a retry or quarantine from a failure only, skipped from pending or lost |
| Tables.Store.Claim | src/punctual/store.py:310-318 | one caller wins a key; an existing row is left alone |
| Tables.Store.Mark | src/punctual/store.py:321-340 | the row of the record takes the record's columns; no other row changes |
| Tables.Store.RecordSkip | src/punctual/store.py:452-460 | a SKIPPED first attempt appears unless the fire has one |
| Tables.Store.PutLastFire | src/punctual/store.py:356-361 | `last_fire` is the given fire afterwards, even if that is earlier; the breaker columns and all other jobs are as before |
| Tables.Store.SaveState | src/punctual/store.py:378-400 | the breaker columns are those given; an existing `last_fire` stands, a new row has the present |
| Tables.Store.RequestResume | src/punctual/store.py:402-407 | the flag is up and nothing else changed; a new row has the present as `last_fire` |
| Tables.Store.ScheduleRetry | src/punctual/store.py:517-527 | a RETRYING row appears unless the attempt exists |
| Tables.Store.DueRetries | src/punctual/store.py:529-534 | exactly the retries whose wait is over, each once, oldest wait first |
| Tables.Store.LastSuccessFire | src/punctual/store.py:446-450 | the greatest fire of the job's successes, or none |
| Tables.Store.NewestRun | src/punctual/store.py:439-444 | the newest attempt of the job's newest fire, or none |
| Tables.Store.ListOpen | src/punctual/store.py:348-350 | exactly the rows without a finish time, each once |
| Tables.LastSuccess | src/punctual/store.py:446-450 | a success no other success of the job is later than; none exactly if there is no success |
| Tables.LastRun | src/punctual/store.py:439-444 | the row of the job that is greatest by fire, then attempt; none exactly if there is no row |
| Gate.GateOnRows | src/punctual/scheduler.py:485-512 | on the rows: go exactly if there are upstreams and each has a success later than the job's last fire, at the latest of those; blocked exactly if some upstream has none and its newest run is a failure later than that, and then on the last such upstream in the list |
| Gate.CaughtUpWaits | src/punctual/scheduler.py:489-506 | once the job's last fire is at or past every upstream's successes and newest run, the gate waits |
| Gate.GoHasWitness | src/punctual/scheduler.py:507-512 | a fire the gate lets through is the fire of an upstream row that succeeded |
| Gate.BlockedHasWitness | src/punctual/scheduler.py:495-506 | the gate blocks on the newest run of the upstream it names, a failure with no later attempt |
| Introspect.UpstreamStatus | src/punctual/introspect.py:35-63 | ready exactly if there are upstreams and each has a success later than the job's last fire, blocked exactly if one has none and its newest run failed later than that, waiting else; so it agrees with the daemon's gate, and when ready the claimed fire is the newest success listed |
| Introspect.SummaryAgrees | src/punctual/introspect.py:57-63 | the quantified summary of any list of upstreams is the decision of the daemon's fold |
| Daemon.Scheduler.constructor | src/punctual/scheduler.py:99-105 | a daemon starts over whatever any earlier run left in the store |
| Daemon.Scheduler.UpdateHealth | src/punctual/scheduler.py:665-711 | a failure adds one, and quarantines from now a job that is quarantined or at its threshold; a success ends count and quarantine, and then skips and resume too; no other job, nor `last_fire`, changes |
| Rules.NextHealth | src/punctual/scheduler.py:665-711 | the branches of the breaker give the specified state, and say exactly when the row has to be saved |
| Daemon.Scheduler.ScheduleRetry | src/punctual/scheduler.py:627-641 | the next attempt appears as RETRYING, due after the delay |
| Daemon.Scheduler.AfterTerminal | src/punctual/scheduler.py:643-661 | `last_fire` is the fire; the next attempt exists exactly if the outcome is a failure or a timeout and the attempt is within `max`, else the health update follows |
| Daemon.Scheduler.ExecuteBegin | src/punctual/scheduler.py:747-754 | CLAIMED becomes RUNNING in the store before anything is spawned |
| Daemon.Scheduler.ExecuteSpawn | src/punctual/scheduler.py:761-768 | the one place where a spawn is counted; the row is RUNNING already |
| Daemon.Scheduler.OnSpawn | src/punctual/scheduler.py:756-759 | only the pid of the row changes |
| Daemon.Scheduler.ExecuteEnd | src/punctual/scheduler.py:770-804 | TIMED_OUT exactly if timed out, SUCCEEDED exactly if not and the exit code is 0, else FAILED; the next attempt is RETRYING, as long after now as backoff and cap say, exactly if that is no success and within `max`; `last_fire` is the fire; without a retry the fire counts: a success resets count and quarantine, anything else adds one; no other row or job changes, and task and slot are gone |
| Daemon.Scheduler.Recover | src/punctual/scheduler.py:293-308 | each open row is taken up once: CLAIMED ones have their task, RUNNING ones are LOST if their process lives or left no exit file and else have the outcome in it, all other rows are untouched, only retries were added, and cursors are past the recovered fires |
| Daemon.Scheduler.RecoverRow | src/punctual/scheduler.py:293-308 | one pass of that loop: the state, the tasks, the cursor and the `last_fire` it leaves |
| Daemon.Scheduler.RecoverRunning | src/punctual/scheduler.py:310-339 | a RUNNING row is LOST exactly if its process lives or left no exit file, with the retry or count of a lost run; else it takes the outcome in the file, with the retry or count of a normal end; the pid to kill is that of a live orphan that is not idempotent |
| Daemon.Scheduler.ResolveFromSentinel | src/punctual/scheduler.py:341-359 | SUCCEEDED exactly for exit 0, TIMED_OUT exactly for a signal, else FAILED; then retry, `last_fire` and count as at a normal end |
| Daemon.Scheduler.DeclareLost | src/punctual/scheduler.py:333-339 | the row is LOST; the next attempt exists, due at once, exactly if `on_lost` is retry, or not given and the job idempotent; else the fire counts as failed |
| Removed.CloseRemoved | src/punctual/scheduler.py:295-298 | the row of a removed job is finished, and LOST if the table allows that move |
| Removed.ForgottenIff | src/punctual/scheduler.py:361-365 | once such a row is closed, some future of restarts, reloads and crashes leaves it CLAIMED without a daemon and with a finish time, if and only if it was waiting for a retry |
| Removed.ForgottenForGood | src/punctual/store.py:348-350 | a row that is CLAIMED or RUNNING with a finish time while no daemon lives never changes again: no recovery has it, its process is not spawned, its fire gets no further attempt |
| Removed.TornWasWaiting | src/punctual/scheduler.py:295-298 | an open row with a finish time was closed, earlier in its history, while it waited for a retry of a job not configured then |
| Removed.NeverSpawnedTwiceWhateverChanges | src/punctual/scheduler.py:293-339 | over restarts and reloads with any configurations, no attempt is spawned twice, and one that waits, is claimed, skipped or unknown was never spawned |
| Daemon.Scheduler.EndLost | src/punctual/scheduler.py:334-339 | … whatever `retries.max` says |
| Daemon.Scheduler.AdvanceSince | src/punctual/scheduler.py:287-290 | a cursor only moves forward |
| Daemon.Scheduler.CloseRecovered | src/punctual/scheduler.py:307-308 | `last_fire` is the recovered fire, with the rest of the clock row and all other jobs as before, and the cursor is at or past it |
| Daemon.Scheduler.Relaunch | src/punctual/scheduler.py:302-305 | a CLAIMED row is launched as it is |
| Daemon.Scheduler.ClaimAndLaunch | src/punctual/scheduler.py:451-454 | a task is launched exactly if the claim was won |
| Daemon.Scheduler.DispatchAdhoc | src/punctual/scheduler.py:456-473 | exactly the queued known jobs are claimed, each for the second in which its turn comes; existing rows are left alone, the queue is empty |
| Daemon.Scheduler.DispatchDue | src/punctual/scheduler.py:430-454 | the rows that were there, and a CLAIMED one exactly for the newest due fire of each enabled clock-driven job with a free slot that is not quarantined, or was resumed, or is idle with `quarantined_at` + cooldown past |
| Rules.DueRows | src/punctual/scheduler.py:430-454 | the same loop, job by job, claims exactly the newest due fire of every job that passes the breaker and has a slot as things stood before it |
| Rules.DueCursors | src/punctual/scheduler.py:430-438 | … leaves each cursor at its newest due fire, and no job disturbs another's clock row or cursor |
| Effects.DueClocks | src/punctual/scheduler.py:430-454 | … and leaves each clock row unchanged, or with the held fire counted and passed over, or out of quarantine after a resume |
| Daemon.Scheduler.DispatchDueJob | src/punctual/scheduler.py:430-454 | for one job: nothing without a due fire; else the cursor at the newest, which is passed over and counted while the breaker holds, or else claimed if a slot is free |
| Daemon.Scheduler.HoldBack | src/punctual/scheduler.py:441-445 | `last_fire` is the held fire and the skips are one more; the rest of the clock row and all other jobs are as before |
| Daemon.Scheduler.QuarantineLetsFireThrough | src/punctual/scheduler.py:560-575 | without a resume: yes exactly if there is a cooldown, `quarantined_at` + cooldown is not after now and no task of the job is executing, and nothing is written; with one: yes, and count, quarantine, skips and flag are cleared |
| Daemon.Scheduler.SweepRetries | src/punctual/scheduler.py:613-625 | exactly the RETRYING rows whose `not_before` is not after now, of enabled jobs that are not quarantined and have a slot, become CLAIMED tasks without a `not_before`; every other row stays |
| Daemon.Scheduler.SweepRow | src/punctual/scheduler.py:622-625 | RETRYING becomes CLAIMED in the store before the launch |
| Daemon.Scheduler.Poll | src/punctual/scheduler.py:481-502 | the loop over the upstreams computes the fold of their verdicts |
| Daemon.Scheduler.DispatchTriggeredJob | src/punctual/scheduler.py:476-522 | held back by the breaker, nothing; with a fresh success of every upstream, the latest of those claimed if a slot is free; on a failed upstream, the reaction to the last in the list; else nothing |
| Daemon.Scheduler.DispatchTriggered | src/punctual/scheduler.py:476-522 | the triggered jobs in turn, each reading the clock anew and seeing what those before it wrote |
| Daemon.Scheduler.OnUpstreamFailure | src/punctual/scheduler.py:524-558 | run: claimed if a slot is free; skip: SKIPPED unless the fire has a row, and `last_fire` at it; wait: held, since when is remembered, and skipped once since + `wait_timeout` is not after now |
| Daemon.Scheduler.SkipFireOf | src/punctual/scheduler.py:547-558 | a SKIPPED row unless the fire has a row, `last_fire` at the fire and nothing else in the clock rows changed, the wait over |
| Daemon.Scheduler.ReactNow | src/punctual/scheduler.py:527-546 | the policy's reaction, and since when a waiting job waits |
| Daemon.Scheduler.PlanCatchUp | src/punctual/scheduler.py:377-417 | replays only fires of the schedule after `last_fire`, none of a quarantined, new or triggered job; the cursor is at one of them; under skip `last_fire` is there too and nothing is replayed, under run_latest that one alone, under run_each with no negative cap that one last |
| Effects.EndedIsNotMissed | src/punctual/scheduler.py:377-417 | right after a run of a fire ended, catch-up replays later fires only |
| Daemon.Scheduler.RunSequenceNext | src/punctual/scheduler.py:419-427 | a missed fire is begun exactly if the daemon is not draining and the fire has no row |
| Daemon.Scheduler.ExitDrained | src/punctual/scheduler.py:110-125 | a drained daemon leaves no CLAIMED or RUNNING row |
| Daemon.Scheduler.Tick | src/punctual/scheduler.py:165-174 | what was due when the tick began has a row after it: every queued manual trigger of a known job, the newest due fire of every clock-driven job that may run, the ready fire of every triggered job that may run, every due retry CLAIMED; any other row that changed was a retry past its `not_before`; and tables, cursors, marks and queue are those of the four parts in order |
| Effects.TriggeredIsClaimed | src/punctual/scheduler.py:476-522 | a triggered job ready when the loop over the triggered jobs begins is claimed for that very fire in its turn, whatever the jobs before it write |
| Rules.TickOnlySweeps | src/punctual/scheduler.py:165-174 | over all four parts, a row that was there is left alone unless it is a retry that was swept |
| Daemon.Scheduler.Trigger | src/punctual/scheduler.py:229-238 | exactly a known job on a daemon that is alone or leads is queued; an unknown job is the first reason to refuse |
| Daemon.Scheduler.Resume | src/punctual/store.py:402-407 | a resume between two ticks raises the flag of that job only |
| Daemon.Scheduler.RequestDrain | src/punctual/scheduler.py:216-218 | from here on nothing is dispatched |
| Rules.ChooseReplay | src/punctual/scheduler.py:397-417 | skip, newest, or newest min(cap, n) of the missed fires, including the slice a negative cap takes |
| Rules.TriggersOnlyInsert | src/punctual/scheduler.py:476-522 | the trigger loop never changes a row that exists |
| Schedule.FiresBetween | src/punctual/schedule.py:39-60 | lists the fires in (start, end] in order, consecutive repeats of a wall-clock slot dropped |
| Schedule.FiresInMeans | src/punctual/schedule.py:31-36 | iterating next_fire gives exactly the fires of the interval, strictly increasing |
| Schedule.OnceMeans | src/punctual/schedule.py:39-60 | de-duplication keeps an ordered subset, no two neighbours on one slot, ending on the newest fire's slot |
| Schedule.LatestDue | src/punctual/scheduler.py:577-588 | terminates with the last fire of (since, now], or none |
| Schedule.LatestDueAgrees | src/punctual/scheduler.py:577-588 | agrees with the last fire `fires_between` lists if and only if the newest fire repeats no slot; always, on streams without repeated slots |
| Schedule.FoldFiresTwice | src/punctual/schedule.py:42-45 | a folded clock on which one slot fires at catch-up and again at a tick, whether its second showing came due before or after the catch-up |
| Schedule.SlotsRepeatIff | src/punctual/scheduler.py:377-395 | over a hand-over no slot repeats its neighbour if and only if none does after the cursor and the next fire is not on the cursor's slot |
| Schedule.NeverRepeatsIff | src/punctual/scheduler.py:577-588 | no series of ticks after a catch-up picks a slot twice in a row if and only if all fires from the cursor on differ in slot; what catch-up lists counts with its last fire only |
| Schedule.SlotsFireOnceIff | src/punctual/schedule.py:42-45 | however the loop ticks after a catch-up, no slot is listed or picked twice, with others in between or not, if and only if the listed fires and all fires after the cursor differ in slot |
| Schedule.ListHoldsASlotTwice | src/punctual/schedule.py:52-60 | a clock on which the list alone holds a slot twice, although no pair of neighbours repeats one |
| Schedule.ReplayIsSuffix | src/punctual/scheduler.py:397-417 | what is replayed is an ordered suffix of what was missed, of the length the policy and cap say |
| Schedule.HandOver | src/punctual/scheduler.py:377-395 | the cursor splits the fires without gap; what catch-up lists and the later fires are every fire once if and only if no two neighbours up to the cursor share a slot |
| Schedule.TrailingDropIsSeenLater | src/punctual/schedule.py:52-60 | a repeat dropped at the very end is not lost: the cursor stays before it |
| Schedule.HandOverIsExact | src/punctual/scheduler.py:377-395 | on streams without repeated slots, catch-up and later ticks partition the fires after the baseline |
| Schedule.FiresSplit | src/punctual/schedule.py:39-60 | the fires of an interval are those before any point in it and those after |
| Schedule.TicksPartitionTheFires | src/punctual/scheduler.py:430-438 | within one boot every fire is found by exactly one tick, in order |
| Leases.LeaseTable.AcquireLease | src/punctual/store.py:463-475 | wins exactly if there is no row, or it expired before this second, or it is ours; then the row is ours with the next fence and the new expiry, else it is unchanged |
| Leases.LeaseTable.RenewLease | src/punctual/store.py:477-482 | succeeds exactly if holder and fence match, expired or not, and moves the expiry alone |
| Leases.LeaseTable.ReleaseLease | src/punctual/store.py:484-485 | deletes the row if it is ours |
| Leases.LeaseTable.LeaseHolder | src/punctual/store.py:487-492 | whoever it names is the only one who can acquire; when it names nobody anyone can, except in the lease's last second, when only its holder can |
| Leases.Candidate.RenewLease | src/punctual/scheduler.py:141-148 | a store error counts as having lost the lease |
| Leases.Candidate.BecomeLeader | src/punctual/scheduler.py:131-139 | a lone daemon always leads; a clustered one leads for 30 seconds with the fence it can renew |
| Leases.HoldsNeverOverlap | src/punctual/store.py:463-485 | over any interleaving, the stretches two daemons held never overlap |
| Leases.OneRenewalAtMost | src/punctual/store.py:477-482 | in any state the renewal of at most one daemon would succeed |
| Leases.FenceCountsAcquires | src/punctual/store.py:463-475 | the fence is the number of acquires won since the row was last deleted, and each raises it by one |
| Leases.ActingInTimeIsExclusive | src/punctual/scheduler.py:156-174 | a daemon in a block still owns the row up to and including the second in which its hold ends |
| Leases.RivalTakesOverIff | src/punctual/store.py:463-475 | a standby's acquire takes the row from a leader in a block if and only if that second is past |
| Leases.SupersededActsOnlyInItsBlock | src/punctual/scheduler.py:165-174 | after another's acquire, a daemon's block under way is its loop's last until it acquires again |
| Leases.SupersededClaimsIff | src/punctual/scheduler.py:419-427 | a daemon without the row and outside its block claims in some future, not acquiring again, if and only if it has missed fires left to replay and is not draining |
| Leases.ReplaysAreSpent | src/punctual/scheduler.py:419-427 | such claims are never more than the fires that were left |
| Leases.SupersededStillClaims | src/punctual/scheduler.py:161-163 | a cluster in which a daemon whose renewal failed claims beside the new leader |
| Leases.NotOwnedUntilAcquired | src/punctual/store.py:477-485 | only its own acquire gives a lost row back to a daemon |
| Leases.StalledLeaderStillActs | src/punctual/scheduler.py:165-174 | a stalled leader and its successor are both in a block |
| Leases.FenceRestarts | src/punctual/store.py:484-485 | after a release the next acquire has fence 1 |
| Leases.FencesRiseIff | src/punctual/store.py:463-485 | the fences a run gives out strictly rise if and only if no acquire follows a release that deleted the row |
| Dependencies.CycleSearch.Visit | src/punctual/config.py:307-317 | the GREY nodes are those on the path, BLACK ones are finished upstream first; returns with the node finished or with a real cycle; the WHITE nodes decrease |
| Dependencies.RejectCycles | src/punctual/config.py:301-321 | raises if and only if the graph has a cycle, and reports one |
| Dependencies.CycleSearch.Search | src/punctual/config.py:319-321 | when nothing is raised, the order of finishing is a topological order of all jobs |
| Dependencies.CycleSearch.IndexOf | src/punctual/config.py:311-313 | a GREY upstream is on the path, so the fallback message is never used |
| Dependencies.OrderedIsAcyclic | src/punctual/config.py:301-321 | a graph with a topological order has no cycle |
| Dependencies.CheckJobs | src/punctual/config.py:283-292 | accepts exactly the configurations with unique names, known upstreams and no cycle, and each error it reports is one |
| Dependencies.CheckNames | src/punctual/config.py:283-287 | reports a name that is defined twice exactly if there is one |
| Dependencies.CheckKnown | src/punctual/config.py:288-291 | reports an upstream that is no job exactly if there is one |
| Reload.JobTable.Reload | src/punctual/scheduler.py:251-279 | merges a valid configuration, gives new jobs a cursor and keeps the others; an invalid one changes nothing |
| Reload.ByNameMeans | src/punctual/scheduler.py:265-269 | the jobs a reload adds are those it must, in strictly rising order of name |
| Reload.MergeKeepsNames | src/punctual/scheduler.py:264-269 | names stay unique and are exactly the new configuration's |
| Reload.ReloadStaysAcyclic | src/punctual/scheduler.py:251-279 | a closed acyclic job set stays acyclic under any valid configuration |
| Reload.ReloadIsSafeIffClosed | src/punctual/scheduler.py:251-279 | … and closure is exactly the condition for that |
| Reload.TwoReloadsCanCycle | src/punctual/scheduler.py:251-279 | two valid reloads after which the running graph has a cycle |
| Steps.Checkpoints.Step | src/punctual/steps.py:52-67 | with no other attempt in between: calls the function exactly if the name has no record; the answer is the recorded one either way; errors leave the table alone; other fires are untouched |
| Steps.Checkpoints.CommitStep | src/punctual/steps.py:61-67 | the answer is the caller's own payload, loaded; it is recorded unless the name has a record by then; errors leave the table alone |
| Steps.Checkpoints.GetStep | src/punctual/store.py:548-553 | the recorded answer of the name, or none |
| Steps.Checkpoints.RecordStep | src/punctual/store.py:555-560 | the first record of a name stands |
| Steps.DumpsOfLoads | src/punctual/steps.py:61-67 | a value that went through JSON once goes through unchanged |
| Steps.LoadsOfDumps | src/punctual/steps.py:61-67 | a value goes through JSON exactly if all of it has a form there, and only its tuples come back changed, as lists |
| Steps.SameAsUninterrupted | src/punctual/steps.py:15-21 | when attempts follow one another: a body that ends after any interruptions was given what one uninterrupted run with the same kept answers gives it, and leaves the same records |
| Steps.CallsOfAStep | src/punctual/steps.py:52-67 | in any life of a fire whose attempts follow one another a function is called once for its record and once per lost answer |
| Steps.ExactlyOnceIff | src/punctual/steps.py:52-67 | in a finished life whose attempts follow one another every function called was called once if and only if no answer was lost |
| Steps.EachStepOnce | src/punctual/steps.py:15-21 | with attempts one after another and interrupted between calls only, a finished body called each function once and ended as an uninterrupted run |
| Overlaps.OnceIff | src/punctual/steps.py:52-67 | however attempts overlap: once some attempt is done, every function called was called once if and only if no answer was lost and no call of a step began while another attempt was inside one |
| Overlaps.HonestIff | src/punctual/steps.py:52-67 | every answer given is the record's if and only if no commit found its name recorded with another payload |
| Overlaps.DoneAsUninterrupted | src/punctual/steps.py:15-21 | without such a commit an attempt that is done, however others ran beside it, was given what one uninterrupted run with the same kept answers gives it; a lost answer is in the records all the same |
| Overlaps.CallsAreAccounted | src/punctual/store.py:548-560 | while no call has begun beside another of its step, each step has one attempt inside it at most, no answer differs from its record, and every call is in progress, recorded or lost |
| Overlaps.TwoAttemptsCallTwice | src/punctual/steps.py:52-67 | an orphan and its retry that both look before either records: two calls, nothing lost, and the second goes on with an answer the record does not hold |
| Timestamps.TextEmbedsOrder | src/punctual/store.py:10-12 | stored texts compare as the whole UTC seconds of their instants compare, and are equal exactly if those are |
| Timestamps.ParseOfUtc | src/punctual/store.py:149-159 | reading a stored timestamp gives the instant truncated to the second |
| Timestamps.UtcOfParse | src/punctual/store.py:149-159 | every text of the stored shape is the stored form of what it reads as |
| Timestamps.TextOrder | src/punctual/store.py:149-150 | the fixed-width text orders dates and times field by field |
| Timestamps.DateOfDayNumber | src/punctual/store.py:149-150 | counting days through the calendar and the closed-form day number are inverse |
| Timestamps.MonthsBegin | src/punctual/store.py:149-150 | the months begin where those of the Gregorian calendar do |
| Timestamps.DueWithinASecond | src/punctual/store.py:529-534 | a retry is never missed by the text comparison, and is early by less than a second |
| Timestamps.NeverEarlyIff | src/punctual/store.py:529-534 | a retry is never early, whenever it is looked at, if and only if its `not_before` is a whole second |
| Timestamps.DueHalfASecondEarly | src/punctual/store.py:529-534 | a retry for second 1.5 is due at second 1.0 |

## Left out

- Process groups, signals and pipes: a run is an exit code, a timeout or a sentinel chosen by the environment; a killed process is gone at once, and a recorded pid matches exactly while its process lives.
- SQL engines, drivers and schema migration: a statement is one atomic map update. The columns `started_at`, `exit_code`, `claimed_by`, `heartbeat_at`, `note`, `quarantine_reason` and the output tails decide nothing and are not modelled.
- croniter and time zones: a schedule is an abstract least-fire-after function with a wall-clock reading.
- Control socket, HTTP metrics, notifications, logs, CLI, service files: input and output only.
- The concurrency limit, a monotone `last_fire`, and spawning at most once across leader changes: the code does not keep them.
- Daemon.Scheduler.Recover: the lifecycle keeps one configuration, so the rows of a removed job do not occur in it; closing one is `Removed.CloseRemoved`, and what becomes of it is proved over the histories of `Removed`.
- Daemon.Scheduler.RecoverRow: the same.
- A resume written by another process while the daemon rewrites the same row: a resume is an atomic step between two ticks.
- Run: a record is read from the store, edited and written back inside one block; aliasing between a task's record and `_running`, and `stop --kill`, which reads its pid, are not modelled.
- Daemon.Scheduler.DispatchTriggeredJob: one job's block reads the clock once; the source reads it again for the breaker, the wait and the skip.
- Removed.ForgottenIff: when a retry is due, and how many slots a job has, is not part of a step, so the retry is swept as soon as its job is back.
- Timestamps.Utc: an instant outside the years 1 to 9999 of UTC is an overflow error in the source and is excluded here.
- Timestamps.Parse: reads the one shape the store writes; `fromisoformat` takes others.
- Steps.Dumps: numbers, strings, null, lists and tuples stand for JSON; dictionaries and floats are left out.
- Steps.Program: an exception that a job body catches around a step, and goes on from, is outside the model; the module-wide cached store of `_ctx` is one table.
