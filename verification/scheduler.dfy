/** The daemon itself (`scheduler.py`): a class whose methods execute, statement by
    statement, runs of the step relation in Lifecycle. The ghost fields `acts` and
    `past` record every statement and every state in between, so every point at
    which a crash can strike; what Theorems proves of runs holds of this object. */
module Daemon {
  import opened Models
  import opened Tables
  import opened Gate
  import opened Schedule
  import opened Lifecycle
  import opened Invariants
  import opened History
  import opened Theorems
  import opened Rules
  import opened Effects

  class Scheduler {
    const jobs: seq<Job>
    const cfg: Config
    const crons: map<string, Cron>
    const store: Store
    var since: map<string, int>
    var inflight: map<string, int>
    var running: set<Key>
    var tasks: map<Key, Phase>
    var adhoc: seq<string>
    var blockedSince: map<string, int>
    var stopping: bool
    ghost var acts: seq<Action>
    ghost var past: seq<State>

    /** A daemon starts over whatever a run so far has left in the store: a fresh
        store, one drained by its last daemon, or one a crash struck at any statement. */
    constructor (jobs: seq<Job>, cfg: Config, crons: map<string, Cron>, store: Store, started: int,
                 ghost acts: seq<Action>, ghost past: seq<State>)
      requires Configured(jobs, cfg, crons) && IsRun(cfg, acts, past)
      requires store.runs == past[|past| - 1].runs && store.clock == past[|past| - 1].clock
      ensures Valid() && World().mode == Down && this.store == store && this.cfg == cfg && this.jobs == jobs
      ensures this.acts == acts + [Crash] && this.past[..|past|] == past
      ensures adhoc == [] && forall j :: j in cfg ==> j in since && since[j] == started
    {
      this.jobs, this.cfg, this.crons, this.store := jobs, cfg, crons, store;
      since := map j | j in cfg :: started;
      inflight, running, tasks, adhoc, blockedSince, stopping := map[], {}, map[], [], map[], false;
      this.acts, this.past := acts, past;
      new;
      Record(Crash);
    }

    ghost function World(): State
      reads this`past
      requires past != []
    {
      past[|past| - 1]
    }

    /** The store holds what the run so far has written. */
    ghost predicate Tracked()
      reads this, store
    {
      && IsRun(cfg, acts, past)
      && store.runs == World().runs && store.clock == World().clock
      && (stopping <==> World().mode == Draining)
    }

    function Inflight(job: string): int
      reads this`inflight
    {
      InflightOf(inflight, job)
    }

    /** `_running` and `_inflight` count the tasks that have begun. */
    ghost predicate TasksTracked()
      reads this
      requires past != []
    {
      && tasks == World().tasks
      && (forall k :: k in running <==> k in tasks && tasks[k] != Launched)
      && Counted()
    }

    ghost predicate Counted()
      reads this`inflight, this`running
    {
      forall j :: Inflight(j) == Load(running, j)
    }

    ghost predicate Valid()
      reads this, store
    {
      Configured(jobs, cfg, crons) && Tracked() && TasksTracked() && forall j :: j in cfg ==> j in since
    }

    /** Between blocks: nothing is owed and the loop is alive. */
    ghost predicate AtRest()
      reads this, store
    {
      Valid() && LoopIdle(World())
    }

    /** Notes that a statement was executed: the run grows by one step. */
    ghost method Record(a: Action)
      requires IsRun(cfg, acts, past) && Guard(cfg, World(), a) && !Gated(a)
      modifies this`acts, this`past
      ensures IsRun(cfg, acts, past) && acts == old(acts) + [a] && past == old(past) + [World()]
      ensures Grounded(old(World())) && World() == Apply(cfg, old(World()), a)
    {
      RunGrows(cfg, acts, past, a);
      acts, past := acts + [a], past + [Apply(cfg, World(), a)];
    }

    /** The same for a step that acts on the trigger gate. */
    ghost method RecordGated(a: Action)
      requires IsRun(cfg, acts, past) && Guard(cfg, World(), a) && GateAgrees(cfg, World(), a)
      modifies this`acts, this`past
      ensures IsRun(cfg, acts, past) && acts == old(acts) + [a] && past == old(past) + [World()]
      ensures Grounded(old(World())) && World() == Apply(cfg, old(World()), a)
    {
      RunGrows(cfg, acts, past, a);
      acts, past := acts + [a], past + [Apply(cfg, World(), a)];
    }

    // --- the end of a run --------------------------------------------------

    /** How a block goes on once its fire is retried or closed. */
    twostate predicate BlockEnded(key: Key)
      requires old(past) != [] && past != []
      reads this
    {
      && World().mode == old(World().mode) && World().spawns == old(World().spawns)
      && World().tasks == (if old(World().pc).Verdict? then old(World().tasks) - {key} else old(World().tasks))
      && World().pc == (if old(World().pc).Verdict? && !old(World().pc).recovering then Idle else Recovered(key))
    }

    /** `_update_health`: one failed fire counts once and may open the breaker; a
        success closes it. */
    method UpdateHealth(job: Job, outcome: RunState, now: int)
      requires Tracked() && Guard(cfg, World(), OweHealth(now))
      requires World().pc.key.job in cfg && cfg[World().pc.key.job] == job && job.name == World().pc.key.job
      requires outcome == OutcomeOf(World().pc)
      modifies this`acts, this`past, store`clock
      ensures Tracked() && acts == old(acts) + [OweHealth(now)] && BlockEnded(old(World().pc.key))
      ensures store.clock == Lifecycle.UpdateHealth(old(store.clock), job, job.name, outcome, now)
      ensures Counts(old(store.clock), store.clock, job, outcome == Failed || outcome == TimedOut || outcome == Lost, now)
    {
      HealthMeans(store.clock, job, outcome, now);
      var next, dirty := NextHealth(job, StateOf(store.clock, job.name), outcome, now);
      if dirty {
        store.SaveState(job.name, next, now);
      }
      Record(OweHealth(now));
    }

    /** `_schedule_retry`. */
    method ScheduleRetry(key: Key, delay: int, now: int)
      requires Tracked() && Guard(cfg, World(), OweRetry(now + delay)) && World().pc.key == key
      modifies this`acts, this`past, store`runs
      ensures Tracked() && acts == old(acts) + [OweRetry(now + delay)] && BlockEnded(key)
      ensures store.runs == InsertIfAbsent(old(store.runs), key.Next(), RetryRow(now + delay))
    {
      var made := store.ScheduleRetry(key.Next(), now + delay);
      Record(OweRetry(now + delay));
    }

    /** The fire whose block is in progress has no later attempt. */
    lemma NoSuccessor(key: Key)
      requires Tracked() && Undecided(World().pc, key)
      ensures key in store.runs && key.Next() !in store.runs
    {
      RunIsGrounded(cfg, acts, past);
    }

    /** `_after_terminal`: advance the clock row, then retry the fire or close it. */
    method AfterTerminal(job: Job, key: Key, outcome: RunState, now: int)
      requires Tracked() && World().pc.Ended? && World().pc.key == key && World().pc.outcome == outcome
      requires key.job in cfg && cfg[key.job] == job && job.name == key.job && key.attempt >= 1
      modifies this`acts, this`past, store
      ensures Tracked() && acts == old(acts) + [OweSetFire, EndOf(job, key.attempt, outcome, now)]
      ensures World().tasks == old(World().tasks) - {key}
      ensures World().pc == if old(World().pc.recovering) then Recovered(key) else Idle
      ensures World().mode == old(World().mode) && World().spawns == old(World().spawns)
      ensures store.runs == if EarnsRetry(job, key.attempt, outcome)
                            then InsertIfAbsent(old(store.runs), key.Next(), RetryRow(now + job.retries.DelayForAttempt(key.attempt)))
                            else old(store.runs)
      ensures store.clock == var clock := SetLastFire(old(store.clock), job.name, key.fire);
                             if EarnsRetry(job, key.attempt, outcome) then clock
                             else Lifecycle.UpdateHealth(clock, job, job.name, outcome, now)
      ensures key.Next() !in old(store.runs)
      ensures StateOf(store.clock, job.name).lastFire == Some(key.fire) && OthersKept(old(store.clock), store.clock, job.name)
      ensures key.Next() in store.runs <==> (outcome == Failed || outcome == TimedOut) && key.attempt <= job.retries.max
    {
      NoSuccessor(key);
      FireEnds(store.clock, job, key.fire, outcome, EarnsRetry(job, key.attempt, outcome), now);
      SettleFire(job, key, outcome, now);
    }

    /** The clock row moves to the fire of the attempt that ended. */
    method MoveClock(job: string, key: Key)
      requires Tracked() && World().pc.Ended? && World().pc.key == key && job == key.job
      modifies this`acts, this`past, store`clock
      ensures Tracked() && acts == old(acts) + [OweSetFire] && store.clock == SetLastFire(old(store.clock), job, key.fire)
      ensures World() == old(World()).(clock := store.clock, pc := Verdict(key, old(World()).pc.outcome, old(World()).pc.recovering))
    {
      store.PutLastFire(job, key.fire);
      Record(OweSetFire);
    }

    /** The same, as the functions of the lifecycle. */
    method SettleFire(job: Job, key: Key, outcome: RunState, now: int)
      requires Tracked() && World().pc.Ended? && World().pc.key == key && World().pc.outcome == outcome
      requires key.job in cfg && cfg[key.job] == job && job.name == key.job && key.attempt >= 1
      modifies this`acts, this`past, store
      ensures Tracked() && acts == old(acts) + [OweSetFire, EndOf(job, key.attempt, outcome, now)]
      ensures World().tasks == old(World().tasks) - {key}
      ensures World().pc == if old(World().pc.recovering) then Recovered(key) else Idle
      ensures World().mode == old(World().mode) && World().spawns == old(World().spawns)
      ensures store.runs == if EarnsRetry(job, key.attempt, outcome)
                            then InsertIfAbsent(old(store.runs), key.Next(), RetryRow(now + job.retries.DelayForAttempt(key.attempt)))
                            else old(store.runs)
      ensures store.clock == var clock := SetLastFire(old(store.clock), job.name, key.fire);
                             if EarnsRetry(job, key.attempt, outcome) then clock
                             else Lifecycle.UpdateHealth(clock, job, job.name, outcome, now)
    {
      MoveClock(job.name, key);
      if EarnsRetry(job, key.attempt, outcome) {
        ScheduleRetry(key, job.retries.DelayForAttempt(key.attempt), now);
      } else {
        UpdateHealth(job, outcome, now);
      }
    }

    // --- execution ---------------------------------------------------------

    /** What AtRest knows of one task and its row. */
    lemma TaskFacts(key: Key)
      requires Tracked() && TasksTracked() && key in tasks
      ensures key in store.runs && key.job in cfg && key.attempt >= 1
      ensures World().pc == Idle ==> PhaseFits(tasks[key], store.runs[key].state)
    {
      RunIsGrounded(cfg, acts, past);
      assert TaskOk(World(), key);
      assert RowOk(cfg, World().runs, key);
    }

    /** `_inflight += 1` and the entry in `_running`. */
    method Enter(key: Key)
      requires Counted() && key !in running
      modifies this`inflight, this`running
      ensures Counted() && running == old(running) + {key}
    {
      forall j ensures Load(running + {key}, j) == Load(running, j) + (if key.job == j then 1 else 0) {
        LoadAdd(running, key, j);
      }
      inflight := inflight[key.job := Inflight(key.job) + 1];
      running := running + {key};
    }

    /** The `finally` of `_execute_run`: the task is gone. */
    method Leave(key: Key)
      requires Configured(jobs, cfg, crons) && Tracked() && LoopIdle(World()) && Counted()
      requires forall j :: j in cfg ==> j in since
      requires key in running && World().tasks == tasks - {key}
      requires forall k :: k in running <==> k in tasks && tasks[k] != Launched
      modifies this`inflight, this`running, this`tasks
      ensures AtRest() && tasks == old(tasks) - {key}
      ensures forall j :: Inflight(j) == old(Inflight(j)) - (if j == key.job then 1 else 0)
    {
      forall j ensures Load(running - {key}, j) == Load(running, j) - (if key.job == j then 1 else 0) {
        LoadRemove(running, key, j);
      }
      inflight := inflight[key.job := Inflight(key.job) - 1];
      running := running - {key};
      tasks := tasks - {key};
    }

    /** A row is read, given its outcome by `transition_to`, and written back. */
    method CloseRow(key: Key, to: RunState, now: int)
      requires key in store.runs && Allowed(store.runs[key].state, to)
      modifies store`runs
      ensures store.runs == old(store.runs)[key := old(store.runs)[key].(state := to, finishedAt := Some(now))]
    {
      var run := new Run(key, store.runs[key]);
      run.finishedAt := Some(now);
      var ok := run.TransitionTo(to);
      assert ok;
      store.Mark(run);
    }

    /** A retry whose wait is over becomes a claim: RETRYING -> CLAIMED. */
    method ReclaimRow(key: Key)
      requires key in store.runs && store.runs[key].state == Retrying
      modifies store`runs
      ensures store.runs == old(store.runs)[key := old(store.runs)[key].(state := Claimed, notBefore := None)]
    {
      var run := new Run(key, store.runs[key]);
      var ok := run.TransitionTo(Claimed);
      assert ok;
      run.notBefore := None;
      store.Mark(run);
    }

    /** `_execute_run` up to its first await: RUNNING is written before anything is
        spawned, and the transition is one the table allows. */
    method ExecuteBegin(key: Key)
      requires AtRest() && key in tasks && tasks[key] == Launched
      modifies this`acts, this`past, this`inflight, this`running, this`tasks, store`runs
      ensures AtRest() && acts == old(acts) + [StartTask(key)]
      ensures key in old(store.runs) && old(store.runs)[key].state == Claimed
      ensures store.runs == old(store.runs)[key := old(store.runs)[key].(state := Running)]
      ensures tasks == old(tasks)[key := Marked]
    {
      TaskFacts(key);
      Enter(key);
      var run := new Run(key, store.runs[key]);
      var ok := run.TransitionTo(Running);
      assert ok;
      store.Mark(run);
      tasks := tasks[key := Marked];
      Record(StartTask(key));
    }

    /** The process exists. */
    method ExecuteSpawn(key: Key)
      requires AtRest() && key in tasks && tasks[key] == Marked
      modifies this`acts, this`past, this`tasks
      ensures AtRest() && acts == old(acts) + [SpawnTask(key)] && tasks == old(tasks)[key := Spawned]
      ensures World().spawns == old(World().spawns) + multiset{key}
    {
      TaskFacts(key);
      tasks := tasks[key := Spawned];
      Record(SpawnTask(key));
    }

    /** `_record_pid`, called by the executor as soon as there is a pid. */
    method OnSpawn(key: Key, pid: int)
      requires AtRest() && key in tasks && tasks[key] == Spawned
      modifies this`acts, this`past, store`runs
      ensures AtRest() && acts == old(acts) + [RecordPid(key, pid)]
      ensures key in old(store.runs) && store.runs == old(store.runs)[key := old(store.runs)[key].(pid := Some(pid))]
    {
      TaskFacts(key);
      var run := new Run(key, store.runs[key]);
      run.pid := Some(pid);
      store.Mark(run);
      Record(RecordPid(key, pid));
    }

    /** The statement that writes a run's outcome. */
    method WriteOutcome(key: Key, outcome: RunState, now: int)
      requires AtRest() && key in tasks && Guard(cfg, World(), FinishTask(key, outcome, now))
      modifies this`acts, this`past, store`runs
      ensures Tracked() && TasksTracked() && acts == old(acts) + [FinishTask(key, outcome, now)]
      ensures World().pc == Ended(key, outcome, false) && World().mode == old(World().mode)
      ensures key in old(store.runs)
      ensures store.runs == old(store.runs)[key := old(store.runs)[key].(state := outcome, finishedAt := Some(now))]
    {
      TaskFacts(key);
      CloseRow(key, outcome, now);
      Record(FinishTask(key, outcome, now));
    }

    /** The outcome is written, then the fire is retried or closed. */
    method EndRun(job: Job, key: Key, outcome: RunState, now: int)
      requires AtRest() && key in tasks && Guard(cfg, World(), FinishTask(key, outcome, now))
      requires key.job in cfg && cfg[key.job] == job && key.attempt >= 1
      modifies this`acts, this`past, store
      ensures Tracked() && acts == old(acts) + EndActions(job, key, outcome, now)
      ensures World().tasks == old(World().tasks) - {key} && World().pc == Idle && World().mode == old(World().mode)
      ensures FireOver(old(store.runs), store.runs, old(store.clock), store.clock, job, key, outcome, now)
    {
      ghost var was, clock := store.runs, store.clock;
      ThreeSteps(acts, FinishTask(key, outcome, now), OweSetFire, EndOf(job, key.attempt, outcome, now));
      WriteOutcome(key, outcome, now);
      AfterTerminal(job, key, outcome, now);
      FireIsOver(was, store.runs, clock, store.clock, job, key, outcome, now);
    }

    /** `_execute_run` after the process ended (or could not be spawned): the outcome
        is written, then the fire is retried or closed, then the task is gone. */
    method ExecuteEnd(job: Job, key: Key, exitCode: int, timedOut: bool, now: int)
      requires AtRest() && key in tasks && key.job in cfg && cfg[key.job] == job && key.attempt >= 1
      requires tasks[key] == Spawned || (tasks[key] == Marked && exitCode == NOT_SPAWNED && !timedOut)
      modifies this`acts, this`past, this`inflight, this`running, this`tasks, store
      ensures AtRest() && tasks == old(tasks) - {key}
      ensures acts == old(acts) + EndActions(job, key, ExitOutcome(exitCode, timedOut), now)
      ensures forall j :: Inflight(j) == old(Inflight(j)) - (if j == key.job then 1 else 0)
      ensures OnlyClosed(old(store.runs), store.runs, key, now)
      ensures store.runs[key].state == TimedOut <==> timedOut
      ensures store.runs[key].state == Succeeded <==> !timedOut && exitCode == 0
      ensures store.runs[key].state == Failed <==> !timedOut && exitCode != 0
      ensures var failed := timedOut || exitCode != 0;
        var retried := failed && key.attempt <= job.retries.max;
        && (key.Next() in store.runs <==> retried)
        && (retried ==> IsRetry(store.runs[key.Next()], job.retries, key.attempt, now))
        && FireEnded(old(store.clock), store.clock, job, key.fire, failed, retried, now)
    {
      FinishRun(job, key, ExitOutcome(exitCode, timedOut), now);
    }

    /** The last block of a run whose outcome is known. */
    method FinishRun(job: Job, key: Key, outcome: RunState, now: int)
      requires AtRest() && key in tasks && Guard(cfg, World(), FinishTask(key, outcome, now))
      requires key.job in cfg && cfg[key.job] == job && key.attempt >= 1
      modifies this`acts, this`past, this`inflight, this`running, this`tasks, store
      ensures AtRest() && tasks == old(tasks) - {key} && acts == old(acts) + EndActions(job, key, outcome, now)
      ensures forall j :: Inflight(j) == old(Inflight(j)) - (if j == key.job then 1 else 0)
      ensures FireOver(old(store.runs), store.runs, old(store.clock), store.clock, job, key, outcome, now)
    {
      EndRun(job, key, outcome, now);
      Leave(key);
    }

    // --- restart recovery ----------------------------------------------------

    /** In the middle of `_recover`, between two rows. */
    ghost predicate Recovers()
      reads this, store
    {
      Valid() && World().pc == Idle && World().mode.Recovering?
    }

    /** What is known of a row recovery takes up. */
    lemma TodoFacts(key: Key)
      requires Recovers() && key in World().mode.todo
      ensures key in store.runs && Open(store.runs[key].state) && key.Next() !in store.runs
      ensures key.job in cfg && key.attempt >= 1 && key !in tasks
    {
      RunIsGrounded(cfg, acts, past);
      assert RowOk(cfg, World().runs, key);
      NothingFollowsOpen(cfg, World(), key);
    }

    /** `_advance_since`. */
    method AdvanceSince(job: string, when: int)
      modifies this`since
      ensures job in since && since[job] >= when
      ensures forall j :: j in old(since) ==> j in since && since[j] >= old(since)[j]
      ensures forall j :: j != job && j in since ==> j in old(since) && since[j] == old(since)[j]
    {
      if job !in since || when > since[job] {
        since := since[job := when];
      }
    }

    /** The statement that closes a recovered row. */
    method WriteRecovered(key: Key, to: RunState, a: Action, now: int)
      requires Recovers() && key in World().mode.todo && key in store.runs && store.runs[key].state == Running
      requires (a == RecoverSentinel(key, to, now) && Outcome(to) && World().spawns[key] > 0)
        || (a == RecoverLost(key, now) && to == Lost)
      modifies this`acts, this`past, store`runs
      ensures Tracked() && acts == old(acts) + [a]
      ensures World().pc == if to == Lost then GoneLost(key) else Ended(key, to, true)
      ensures World().mode == Recovering(old(World().mode.todo) - {key}) && World().tasks == old(World().tasks)
      ensures World().spawns == old(World().spawns)
      ensures store.runs == old(store.runs)[key := old(store.runs)[key].(state := to, finishedAt := Some(now))]
    {
      CloseRow(key, to, now);
      Record(a);
    }

    /** One row is in this state, perhaps with a retry above it; every other row is as
        it was. */
    static ghost predicate OnlyResolved(was: Runs, now: Runs, key: Key, state: RunState) {
      && key in now && now[key].state == state
      && (forall k :: k in was && k != key ==> k in now && now[k] == was[k])
      && (forall k :: k in now && k !in was ==> k == key.Next() && now[k].state == Retrying)
    }

    static lemma ClosedIsResolved(was: Runs, now: Runs, key: Key, at: int)
      requires OnlyClosed(was, now, key, at) && (key.Next() in now && key.Next() !in was ==> now[key.Next()].state == Retrying)
      ensures OnlyResolved(was, now, key, now[key].state)
    {
    }

    /** What resolving one RUNNING row leaves: the row in its final state, perhaps a
        retry above it, every other row as it was, and the block's tail still owed. */
    twostate predicate RowResolved(key: Key, state: RunState)
      requires old(past) != [] && past != [] && old(World()).mode.Recovering?
      reads this, store
    {
      && World().pc == Recovered(key) && World().mode == Recovering(old(World().mode.todo) - {key})
      && World().tasks == old(World().tasks) && World().spawns == old(World().spawns)
      && OnlyResolved(old(store.runs), store.runs, key, state)
    }

    /** The outcome found in the exit file is written, then the fire is retried or closed. */
    method CloseFromFile(job: Job, key: Key, outcome: RunState, now: int)
      requires Recovers() && key in World().mode.todo && key in store.runs && store.runs[key].state == Running
      requires World().spawns[key] > 0 && Outcome(outcome) && key.job in cfg && cfg[key.job] == job && key.attempt >= 1
      modifies this`acts, this`past, store
      ensures Tracked() && World().pc == Recovered(key) && World().mode == Recovering(old(World().mode.todo) - {key})
      ensures World().tasks == old(World().tasks) && World().spawns == old(World().spawns)
      ensures acts == old(acts) + [RecoverSentinel(key, outcome, now), OweSetFire, EndOf(job, key.attempt, outcome, now)]
      ensures FireOver(old(store.runs), store.runs, old(store.clock), store.clock, job, key, outcome, now)
    {
      TodoFacts(key);
      ghost var was, clock := store.runs, store.clock;
      ThreeSteps(acts, RecoverSentinel(key, outcome, now), OweSetFire, EndOf(job, key.attempt, outcome, now));
      WriteRecovered(key, outcome, RecoverSentinel(key, outcome, now), now);
      AfterTerminal(job, key, outcome, now);
      FireIsOver(was, store.runs, clock, store.clock, job, key, outcome, now);
    }

    /** `_resolve_from_sentinel`. */
    method ResolveFromSentinel(job: Job, key: Key, sentinel: Sentinel, now: int)
      requires Recovers() && key in World().mode.todo && key in store.runs && store.runs[key].state == Running
      requires World().spawns[key] > 0 && key.job in cfg && cfg[key.job] == job && key.attempt >= 1
      modifies this`acts, this`past, store
      ensures Tracked() && RowResolved(key, SentinelOutcome(sentinel))
      ensures var outcome := SentinelOutcome(sentinel);
        acts == old(acts) + [RecoverSentinel(key, outcome, now), OweSetFire, EndOf(job, key.attempt, outcome, now)]
      ensures key in store.runs && ReadFrom(sentinel, store.runs[key].state)
      ensures FireOver(old(store.runs), store.runs, old(store.clock), store.clock, job, key, store.runs[key].state, now)
    {
      ghost var was := store.runs;
      CloseFromFile(job, key, SentinelOutcome(sentinel), now);
      ClosedIsResolved(was, store.runs, key, now);
    }

    /** A lost run is retried at once, whatever `retries.max` says, or counted. */
    method EndLost(job: Job, key: Key, now: int)
      requires Tracked() && World().pc == GoneLost(key) && key.job in cfg && cfg[key.job] == job && job.name == key.job
      modifies this`acts, this`past, store
      ensures Tracked() && acts == old(acts) + [EndOfLost(job, now)] && BlockEnded(key)
      ensures store.runs == if job.EffectiveOnLost() == LostRetries
                            then InsertIfAbsent(old(store.runs), key.Next(), RetryRow(now)) else old(store.runs)
      ensures store.clock == if job.EffectiveOnLost() == LostRetries then old(store.clock)
                             else Lifecycle.UpdateHealth(old(store.clock), job, job.name, Lost, now)
      ensures key.Next() !in old(store.runs)
      ensures key.Next() in store.runs <==> job.onLost == Some(LostRetries) || (job.onLost.None? && job.idempotent)
    {
      NoSuccessor(key);
      if job.EffectiveOnLost() == LostRetries {
        ScheduleRetry(key, 0, now);
      } else {
        UpdateHealth(job, Lost, now);
      }
    }

    /** `_to_lost`, then the retry or the health update the job's policy asks for. */
    method DeclareLost(job: Job, key: Key, now: int)
      requires Recovers() && key in World().mode.todo && key in store.runs && store.runs[key].state == Running
      requires key.job in cfg && cfg[key.job] == job
      modifies this`acts, this`past, store
      ensures Tracked() && RowResolved(key, Lost)
      ensures acts == old(acts) + [RecoverLost(key, now), EndOfLost(job, now)]
      ensures key.Next() in store.runs <==> job.onLost == Some(LostRetries) || (job.onLost.None? && job.idempotent)
      ensures LostOver(old(store.runs), store.runs, old(store.clock), store.clock, job, key, now)
    {
      TodoFacts(key);
      ghost var was, clock := store.runs, store.clock;
      WriteRecovered(key, Lost, RecoverLost(key, now), now);
      EndLost(job, key, now);
      LostIsOver(was, store.runs, clock, store.clock, job, key, now);
      ClosedIsResolved(was, store.runs, key, now);
    }

    /** `_recover_running`. `matches` says whether the pid on the row is that of the
        process it was recorded for. The pid to kill is that of a live orphan that is
        not idempotent; the kill itself changes no table. */
    method RecoverRunning(job: Job, key: Key, matches: bool, sentinel: Option<Sentinel>, now: int) returns (kill: Option<int>)
      requires Recovers() && key in World().mode.todo && key in store.runs && store.runs[key].state == Running
      requires (sentinel.Some? ==> World().spawns[key] > 0) && key.job in cfg && cfg[key.job] == job && key.attempt >= 1
      modifies this`acts, this`past, store
      ensures Tracked() && old(acts) <= acts
      ensures RowResolved(key, RecoveredState(old(store.runs)[key], matches, sentinel))
      ensures key in store.runs
      ensures (old(store.runs)[key].pid.Some? && matches) || sentinel.None? ==>
                LostOver(old(store.runs), store.runs, old(store.clock), store.clock, job, key, now)
      ensures !(old(store.runs)[key].pid.Some? && matches) && sentinel.Some? ==>
                && ReadFrom(sentinel.value, store.runs[key].state)
                && FireOver(old(store.runs), store.runs, old(store.clock), store.clock, job, key, store.runs[key].state, now)
      ensures kill == if matches && !job.idempotent then old(store.runs)[key].pid else None
    {
      var alive := store.runs[key].pid.Some? && matches;
      if !alive && sentinel.Some? {
        ResolveFromSentinel(job, key, sentinel.value, now);
        return None;
      }
      kill := if alive && !job.idempotent then store.runs[key].pid else None;
      DeclareLost(job, key, now);
    }

    /** The tail of a recovered row: the clock row and the cursor move to its fire. */
    method CloseRecovered(key: Key)
      requires Configured(jobs, cfg, crons) && Tracked() && TasksTracked() && World().pc == Recovered(key)
      requires forall j :: j in cfg ==> j in since
      requires World().mode.Recovering?
      modifies this`acts, this`past, this`since, store`clock
      ensures Recovers() && acts == old(acts) + [OweSetFire]
      ensures World().mode == old(World().mode) && World().spawns == old(World().spawns)
      ensures key.job in since && since[key.job] >= key.fire
      ensures forall j :: j in old(since) ==> j in since && since[j] >= old(since)[j]
      ensures FireSet(old(store.clock), store.clock, key.job, key.fire)
    {
      SetLastFireMeans(store.clock, key.job, key.fire);
      store.PutLastFire(key.job, key.fire);
      AdvanceSince(key.job, key.fire);
      Record(OweSetFire);
    }

    /** `_launch` of a CLAIMED row in recovery: nothing had spawned. */
    method Relaunch(key: Key)
      requires Recovers() && key in World().mode.todo && key in store.runs && store.runs[key].state == Claimed
      modifies this`acts, this`past, this`tasks
      ensures Tracked() && TasksTracked() && acts == old(acts) + [RecoverClaimed(key)]
      ensures tasks == old(tasks)[key := Launched] && RowTakenUp(key)
    {
      TodoFacts(key);
      tasks := tasks[key := Launched];
      Record(RecoverClaimed(key));
    }

    twostate predicate RowTakenUp(key: Key)
      requires old(past) != [] && past != [] && old(World()).mode.Recovering?
      reads this
    {
      && World().pc == Recovered(key) && World().mode == Recovering(old(World().mode.todo) - {key})
      && World().spawns == old(World().spawns)
    }

    /** What one pass of the loop of `_recover` does to the rows and the tasks. */
    twostate predicate RowRecovered(key: Key, matches: bool, sentinel: Option<Sentinel>)
      requires old(past) != [] && past != [] && old(World()).mode.Recovering? && key in old(store.runs)
      reads this, store
    {
      && World().mode == Recovering(old(World().mode.todo) - {key}) && World().spawns == old(World().spawns)
      && OnlyResolved(old(store.runs), store.runs, key, RecoveredState(old(store.runs)[key], matches, sentinel))
      && tasks == (if old(store.runs)[key].state == Claimed then old(tasks)[key := Launched] else old(tasks))
    }

    /** One pass of the loop of `_recover`. */
    method RecoverRow(key: Key, matches: bool, sentinel: Option<Sentinel>, now: int)
      requires Recovers() && key in World().mode.todo && (sentinel.Some? ==> World().spawns[key] > 0)
      modifies this`acts, this`past, this`since, this`tasks, store
      ensures Recovers() && old(acts) <= acts && key in old(store.runs)
      ensures RowRecovered(key, matches, sentinel)
      ensures forall j :: j in old(since) ==> j in since && since[j] >= old(since)[j]
      ensures old(store.runs)[key].state != Retrying ==> key.job in since && since[key.job] >= key.fire
      ensures old(store.runs)[key].state != Retrying ==> StateOf(store.clock, key.job).lastFire == Some(key.fire)
    {
      TodoFacts(key);
      if store.runs[key].state == Retrying {
        Record(RecoverRetrying(key));  // durable: the retry sweep will pick it up
      } else {
        RecoverClaimedOrRunning(key, matches, sentinel, now);
      }
    }

    method RecoverClaimedOrRunning(key: Key, matches: bool, sentinel: Option<Sentinel>, now: int)
      requires Recovers() && key in World().mode.todo && (sentinel.Some? ==> World().spawns[key] > 0)
      requires key in store.runs && key.job in cfg && key.attempt >= 1 && Active(store.runs[key].state)
      modifies this`acts, this`past, this`since, this`tasks, store
      ensures Recovers() && old(acts) <= acts && RowRecovered(key, matches, sentinel)
      ensures forall j :: j in old(since) ==> j in since && since[j] >= old(since)[j]
      ensures key.job in since && since[key.job] >= key.fire && StateOf(store.clock, key.job).lastFire == Some(key.fire)
    {
      TakeUp(key, matches, sentinel, now);
      CloseRecovered(key);
    }

    /** A CLAIMED row is launched, a RUNNING one resolved. */
    method TakeUp(key: Key, matches: bool, sentinel: Option<Sentinel>, now: int)
      requires Recovers() && key in World().mode.todo && (sentinel.Some? ==> World().spawns[key] > 0)
      requires key in store.runs && key.job in cfg && key.attempt >= 1 && Active(store.runs[key].state)
      modifies this`acts, this`past, this`tasks, store
      ensures Tracked() && TasksTracked() && old(acts) <= acts && World().pc == Recovered(key)
      ensures RowRecovered(key, matches, sentinel)
    {
      if store.runs[key].state == Claimed {
        Relaunch(key);
      } else {
        var kill := RecoverRunning(cfg[key.job], key, matches, sentinel, now);
      }
    }

    /** What recovery has made of the rows `was` once those in `done` were passed. */
    static ghost predicate RecoveredSoFar(was: Runs, now: Runs, done: set<Key>, matches: set<Key>, files: map<Key, Sentinel>)
    {
      && (forall k :: k in was ==> k in now)
      && (forall k :: k in was && k !in done ==> now[k] == was[k])
      && (forall k :: k in was && k in done ==> now[k].state == RecoveredState(was[k], k in matches, FileOf(files, k)))
      && (forall k :: k in now && k !in was ==> now[k].state == Retrying)
    }

    static ghost predicate TasksSoFar(was: Runs, tasks: map<Key, Phase>, done: set<Key>) {
      forall k :: (k in tasks <==> k in done && k in was && was[k].state == Claimed) && (k in tasks ==> tasks[k] == Launched)
    }

    lemma SoFarGrows(was: Runs, before: Runs, now: Runs, tasks: map<Key, Phase>, tasks': map<Key, Phase>,
                     done: set<Key>, key: Key, matches: set<Key>, files: map<Key, Sentinel>)
      requires RecoveredSoFar(was, before, done, matches, files) && TasksSoFar(was, tasks, done)
      requires key in was && key !in done && key in before && before[key] == was[key]
      requires OnlyResolved(before, now, key, RecoveredState(was[key], key in matches, FileOf(files, key)))
      requires tasks' == if was[key].state == Claimed then tasks[key := Launched] else tasks
      ensures RecoveredSoFar(was, now, done + {key}, matches, files) && TasksSoFar(was, tasks', done + {key})
    {
    }

    /** `open_runs`: recovery begins. */
    method BeginRecovery() returns (open: seq<Key>)
      requires Valid() && World().mode == Down && World().pc == Idle
      modifies this`acts, this`past
      ensures Recovers() && acts == old(acts) + [Boot] && World().spawns == old(World().spawns)
      ensures tasks == map[] && World().mode == Recovering(OpenRuns(store.runs))
      ensures forall k :: k in open <==> k in OpenRuns(store.runs)
      ensures forall i, j :: 0 <= i < j < |open| ==> open[i] != open[j]
    {
      RunIsGrounded(cfg, acts, past);
      open := store.ListOpen();
      Record(Boot);
    }

    /** Where the loop of `_recover` stands once it passed the rows in `done`. */
    ghost predicate Passed(was: Runs, done: set<Key>, matches: set<Key>, files: map<Key, Sentinel>)
      reads this, store
    {
      && Recovers() && done <= OpenRuns(was) && World().mode.todo == OpenRuns(was) - done
      && RecoveredSoFar(was, store.runs, done, matches, files) && TasksSoFar(was, tasks, done)
      && (forall k :: k in done && k in was && was[k].state != Retrying ==> k.job in since && since[k.job] >= k.fire)
      && (forall k :: k in files ==> World().spawns[k] > 0)
    }

    method RecoverNext(ghost was: Runs, ghost done: set<Key>, key: Key, matches: set<Key>, files: map<Key, Sentinel>, now: int)
      requires Passed(was, done, matches, files) && key in OpenRuns(was) && key !in done
      modifies this`acts, this`past, this`since, this`tasks, store
      ensures Passed(was, done + {key}, matches, files) && old(acts) <= acts
    {
      ghost var before, tasks0 := store.runs, tasks;
      RecoverRow(key, key in matches, FileOf(files, key), now);
      SoFarGrows(was, before, store.runs, tasks0, tasks, done, key, matches, files);
    }

    method RecoverEach(ghost was: Runs, open: seq<Key>, matches: set<Key>, files: map<Key, Sentinel>, now: int)
      requires Passed(was, {}, matches, files) && SetOf(open) == OpenRuns(was)
      requires forall i, j :: 0 <= i < j < |open| ==> open[i] != open[j]
      modifies this`acts, this`past, this`since, this`tasks, store
      ensures Passed(was, OpenRuns(was), matches, files) && old(acts) <= acts
    {
      assert SetOf(open[..0]) == {};
      for i := 0 to |open|
        invariant old(acts) <= acts
        invariant Passed(was, SetOf(open[..i]), matches, files)
      {
        SetOfNext(open, i);
        RecoverNext(was, SetOf(open[..i]), open[i], matches, files, now);
      }
      assert open[..|open|] == open;
    }

    method EndRecovery()
      requires Recovers() && World().mode.todo == {}
      modifies this`acts, this`past
      ensures AtRest() && World().mode == Up && acts == old(acts) + [RecoverDone]
    {
      Record(RecoverDone);
    }

    /** `_recover`: every open row is taken up once. Afterwards each CLAIMED row has
        its task, each RUNNING row is closed with its recorded outcome or LOST, every
        other row is as it was, and only retries were added. */
    method Recover(matches: set<Key>, files: map<Key, Sentinel>, now: int)
      requires Valid() && World().mode == Down && World().pc == Idle
      requires forall k :: k in files ==> World().spawns[k] > 0
      modifies this`acts, this`past, this`since, this`tasks, store
      ensures AtRest() && World().mode == Up && old(acts) <= acts
      ensures RecoveredSoFar(old(store.runs), store.runs, OpenRuns(old(store.runs)), matches, files)
      ensures TasksSoFar(old(store.runs), tasks, OpenRuns(old(store.runs)))
      ensures RunningAreClosed(old(store.runs), store.runs, matches, files)
      ensures forall k :: k in OpenRuns(old(store.runs)) && old(store.runs)[k].state != Retrying ==>
                k.job in since && since[k.job] >= k.fire
    {
      ghost var was := store.runs;
      var open := BeginRecovery();
      assert SetOf(open) == OpenRuns(was);
      RecoverEach(was, open, matches, files, now);
      EndRecovery();
      RecoveredAreClosed(was, store.runs, matches, files);
    }

    /** A RUNNING row is LOST if its process lives or left no exit file, and else has the
        outcome in that file. */
    static ghost predicate RunningAreClosed(was: Runs, now: Runs, matches: set<Key>, files: map<Key, Sentinel>) {
      forall k :: k in OpenRuns(was) && was[k].state == Running ==>
        && k in now
        && if (was[k].pid.Some? && k in matches) || k !in files then now[k].state == Lost else ReadFrom(files[k], now[k].state)
    }

    static lemma RecoveredAreClosed(was: Runs, now: Runs, matches: set<Key>, files: map<Key, Sentinel>)
      requires RecoveredSoFar(was, now, OpenRuns(was), matches, files)
      ensures RunningAreClosed(was, now, matches, files)
    {
    }

    // --- the tick loop ---------------------------------------------------------

    /** Between blocks of a loop that still dispatches. */
    ghost predicate Ticks()
      reads this, store
    {
      Valid() && World().pc == Idle && World().mode == Up
    }

    /** `store.claim` and, when this caller won, `_launch`. */
    method ClaimAndLaunch(key: Key, ghost from: Origin) returns (won: bool)
      requires Ticks() && key.attempt == 1 && key.job in cfg && (from == ByClock || from == ByOperator)
      requires MayClaim(cfg, World(), key, from)
      modifies this`acts, this`past, this`tasks, store`runs
      ensures Ticks() && (won <==> key !in old(store.runs))
      ensures acts == old(acts) + if won then [Claim(key, from)] else []
      ensures store.runs == InsertIfAbsent(old(store.runs), key, CLAIMED_ROW)
      ensures tasks == if won then old(tasks)[key := Launched] else old(tasks)
    {
      TaskIsStored(key);
      won := store.Claim(key);
      if won {
        tasks := tasks[key := Launched];
        Record(Claim(key, from));
      }
    }

    lemma TaskIsStored(key: Key)
      requires Tracked() && TasksTracked()
      ensures key in tasks ==> key in store.runs
    {
      RunIsGrounded(cfg, acts, past);
    }

    /** The load of a job is zero exactly if none of its tasks is executing. */
    lemma IdleMeans(job: string)
      requires Counted()
      ensures Inflight(job) == 0 <==> forall k :: k in running ==> k.job != job
    {
      var mine := set k | k in running && k.job == job;
      assert Inflight(job) == |mine|;
      assert forall k :: k in running && k.job == job ==> k in mine;
      if forall k :: k in running ==> k.job != job {
        assert mine == {};
      }
    }

    /** `_quarantine_lets_fire_through`. */
    method QuarantineLetsFireThrough(job: Job, state: JobState, now: int) returns (through: bool)
      requires Ticks() && job.name in cfg && state == StateOf(store.clock, job.name) && state.IsQuarantined()
      modifies this`acts, this`past, store`clock
      ensures Ticks() && through == LetsThrough(job, state, Inflight(job.name), now)
      ensures store.clock == if through then AfterBreaker(old(store.clock), job.name, now) else old(store.clock)
      ensures acts == old(acts) + if state.resumeRequested then [ClearQuarantine(job.name, now)] else []
      ensures World().spawns == old(World().spawns)
      ensures !state.resumeRequested ==> store.clock == old(store.clock)
      ensures !state.resumeRequested ==>
        (through <==> job.quarantineCooldown.Some? && state.quarantinedAt.value + job.quarantineCooldown.value <= now
                      && forall k :: k in running ==> k.job != job.name)
      ensures state.resumeRequested ==> through && LetThrough(old(store.clock), store.clock, job.name)
    {
      IdleMeans(job.name);
      BreakerMeans(store.clock, job.name, now);
      if state.resumeRequested {
        store.SaveState(job.name, state.Cleared(), now);
        Record(ClearQuarantine(job.name, now));
        return true;
      }
      through := job.quarantineCooldown.Some? && state.quarantinedAt.Some?
        && now - state.quarantinedAt.value >= job.quarantineCooldown.value && Inflight(job.name) == 0;
    }

    /** `_dispatch_adhoc`: every queued name is claimed for the second in which its turn
        comes; one that collides with a fire already claimed is dropped. */
    method DispatchAdhoc(nows: nat -> int)
      requires Ticks()
      modifies this`acts, this`past, this`tasks, this`adhoc, store`runs
      ensures Ticks() && adhoc == [] && old(acts) <= acts
      ensures store.runs == AddClaims(old(store.runs), AdhocKeys(cfg, old(adhoc), nows))
    {
      ghost var was, queue := store.runs, adhoc;
      var turn: nat := 0;
      AddClaimsNext(was, {}, Key("", 0, 1));
      while adhoc != []
        invariant Ticks() && old(acts) <= acts && turn <= |queue| && adhoc == queue[turn..]
        invariant store.runs == AddClaims(was, AdhocKeys(cfg, queue[..turn], nows))
        decreases |adhoc|
      {
        var name := adhoc[0];
        adhoc := adhoc[1..];
        TriggerNow(was, queue[..turn], name, nows(turn), nows);
        assert queue[..turn + 1] == queue[..turn] + [name];
        turn := turn + 1;
      }
      assert queue[..turn] == queue;
    }

    method TriggerNow(ghost was: Runs, ghost queued: seq<string>, name: string, now: int, ghost nows: nat -> int)
      requires Ticks() && store.runs == AddClaims(was, AdhocKeys(cfg, queued, nows)) && now == nows(|queued|)
      modifies this`acts, this`past, this`tasks, store`runs
      ensures Ticks() && old(acts) <= acts
      ensures store.runs == AddClaims(was, AdhocKeys(cfg, queued + [name], nows))
    {
      AdhocKeysNext(cfg, queued, name, nows);
      if name in cfg {
        AddClaimsNext(was, AdhocKeys(cfg, queued, nows), Key(name, now, 1));
        var won := ClaimAndLaunch(Key(name, now, 1), ByOperator);
      }
    }

    // --- clock-driven fires --------------------------------------------------------

    /** The tables and cursors the loop of `_dispatch_due` works on. */
    function Dues(): DueView
      reads this`since, store
    {
      DueView(store.runs, store.clock, since)
    }

    /** `_dispatch_due` for one job: the newest due fire moves the cursor; it is then
        held back by the breaker, dropped because the job is busy, or claimed. */
    method DispatchDueJob(job: Job, now: int)
      requires Ticks() && job.name in cfg && cfg[job.name] == job && ByClockNow(job)
      modifies this`acts, this`past, this`tasks, this`since, store
      ensures Ticks() && old(acts) <= acts
      ensures Dues() == DueStep(job, crons, old(Dues()), Inflight(job.name), now)
      ensures Fires(job, crons[job.name], old(Dues()), Dues(), Inflight(job.name), now)
    {
      DueStepMeans(job, crons, Dues(), Inflight(job.name), now);
      TakeDue(job, now);
    }

    /** The same, as the function of Rules. */
    method TakeDue(job: Job, now: int)
      requires Ticks() && job.name in cfg && cfg[job.name] == job && ByClockNow(job)
      modifies this`acts, this`past, this`tasks, this`since, store
      ensures Ticks() && old(acts) <= acts
      ensures Dues() == DueStep(job, crons, old(Dues()), Inflight(job.name), now)
    {
      var due := LatestDue(crons[job.name], since[job.name], now);
      if due.None? {
        return;
      }
      since := since[job.name := due.value];
      DispatchFire(job, due.value, now);
    }

    /** A due fire: held back by the breaker, dropped because the job is busy, or claimed. */
    method DispatchFire(job: Job, fire: int, now: int)
      requires Ticks() && job.name in cfg && cfg[job.name] == job && !job.Triggered()
      modifies this`acts, this`past, this`tasks, store
      ensures Ticks() && old(acts) <= acts
      ensures Dues() == FireStep(job, fire, old(Dues()), Inflight(job.name), now)
    {
      var state := StateOf(store.clock, job.name);
      if state.IsQuarantined() {
        var through := QuarantineLetsFireThrough(job, state, now);
        if !through {
          HoldBack(job, fire, now);
          return;
        }
      }
      if Inflight(job.name) >= job.concurrency {
        return;  // a prior run is still going: the fire is dropped, not queued
      }
      var won := ClaimAndLaunch(Key(job.name, fire, 1), ByClock);
    }

    /** The breaker holds a fire back: no catch-up storm on resume. */
    method HoldBack(job: Job, fire: int, now: int)
      requires Ticks() && job.name in cfg && cfg[job.name] == job && !job.Triggered()
      requires StateOf(store.clock, job.name).IsQuarantined()
      modifies this`acts, this`past, store`clock
      ensures Ticks() && acts == old(acts) + [SkipQuarantined(job.name, fire, now), OweSetFire]
      ensures store.clock == AfterHold(old(store.clock), job.name, fire, now)
      ensures PassedOver(old(store.clock), store.clock, job.name, fire)
    {
      HoldMeans(store.clock, job.name, fire, now);
      var state := StateOf(store.clock, job.name);
      store.SaveState(job.name, state.(skipped := state.skipped + 1), now);
      TwoSteps(old(acts), SkipQuarantined(job.name, fire, now), OweSetFire);
      Record(SkipQuarantined(job.name, fire, now));
      CloseSkip(job.name, fire);
    }

    lemma JobsAreScheduled()
      requires Configured(jobs, cfg, crons) && forall j :: j in cfg ==> j in since
      ensures Scheduled(jobs, crons, since)
    {
    }

    method DispatchDueNext(ghost v: DueView, n: nat, now: int)
      requires Ticks() && n < |jobs| && Scheduled(jobs, crons, v.since) && Dues() == DueAll(jobs, n, crons, v, inflight, now)
      modifies this`acts, this`past, this`tasks, this`since, store
      ensures Ticks() && old(acts) <= acts && Dues() == DueAll(jobs, n + 1, crons, v, inflight, now)
    {
      var job := jobs[n];
      if ByClockNow(job) {
        DispatchDueJob(job, now);
      }
    }

    method DispatchDueEach(ghost v: DueView, now: int)
      requires Ticks() && Scheduled(jobs, crons, v.since) && Dues() == v
      modifies this`acts, this`past, this`tasks, this`since, store
      ensures Ticks() && old(acts) <= acts && Dues() == DueAll(jobs, |jobs|, crons, v, inflight, now)
    {
      for n := 0 to |jobs|
        invariant Ticks() && old(acts) <= acts
        invariant Dues() == DueAll(jobs, n, crons, v, inflight, now)
      {
        DispatchDueNext(v, n, now);
      }
    }

    /** `_dispatch_due`: the enabled clock-driven jobs in turn. */
    method DispatchDue(now: int)
      requires Ticks()
      modifies this`acts, this`past, this`tasks, this`since, store
      ensures Ticks() && old(acts) <= acts
      ensures Scheduled(jobs, crons, old(since)) && Dues() == DueAll(jobs, |jobs|, crons, old(Dues()), inflight, now)
      ensures OnlyDueClaimed(old(Dues()), store.runs, now)
      ensures forall k :: k in store.runs && k !in old(store.runs) ==> k.job in cfg && MayRunNow(k.job, old(StateOf(store.clock, k.job)), now)
    {
      JobsAreScheduled();
      ghost var v := Dues();
      DueOnRows(jobs, crons, v, inflight, now);
      DispatchDueEach(v, now);
      ClaimedMayRun(v, store.runs, now);
    }

    /** The rows that were there, and a CLAIMED one for the newest due fire of every job
        that may run it. */
    ghost predicate OnlyDueClaimed(v: DueView, runs: Runs, now: int)
      reads this`inflight
      requires Scheduled(jobs, crons, v.since)
    {
      && (forall k :: k in v.runs ==> k in runs && runs[k] == v.runs[k])
      && (forall k :: k !in v.runs ==> (k in runs <==> ClaimedByTick(jobs, |jobs|, crons, v, inflight, now, k)))
      && (forall k :: k in runs && k !in v.runs ==> runs[k] == Row(Claimed, None, None, None))
    }

    /** Not quarantined, or resumed, or past its cooldown with no task executing. */
    ghost predicate MayRunNow(job: string, state: JobState, now: int)
      reads this`running
      requires job in cfg
    {
      state.quarantinedAt.Some? && !state.resumeRequested ==>
        && cfg[job].quarantineCooldown.Some? && state.quarantinedAt.value + cfg[job].quarantineCooldown.value <= now
        && forall k :: k in running ==> k.job != job
    }

    lemma ClaimedMayRun(v: DueView, runs: Runs, now: int)
      requires Configured(jobs, cfg, crons) && Counted() && Scheduled(jobs, crons, v.since) && OnlyDueClaimed(v, runs, now)
      ensures forall k :: k in runs && k !in v.runs ==> k.job in cfg && MayRunNow(k.job, StateOf(v.clock, k.job), now)
    {
      forall k | k in runs && k !in v.runs
        ensures k.job in cfg && MayRunNow(k.job, StateOf(v.clock, k.job), now)
      {
        IdleMeans(k.job);
        var i :| 0 <= i < |jobs| && jobs[i].name == k.job && IsClaimed(jobs[i], crons, v, Inflight(k.job), now, k.fire);
        assert cfg[k.job] == jobs[i];
      }
    }

    // --- retries -------------------------------------------------------------------

    predicate MayRetry(key: Key)
      reads this`inflight, store`clock
    {
      RetryAllowed(cfg, store.clock, inflight, key)
    }

    /** The rows and tasks once the retries in `keys` were launched. */
    ghost predicate Swept(was: Runs, tasks0: map<Key, Phase>, keys: set<Key>)
      reads this, store
    {
      Ticks() && store.runs == SweepRows(was, keys) && tasks == LaunchAll(tasks0, keys)
    }

    /** One due retry: RETRYING -> CLAIMED is written before the launch. */
    method SweepRow(key: Key)
      requires Ticks() && key in store.runs && store.runs[key].state == Retrying && MayRetry(key)
      modifies this`acts, this`past, this`tasks, store`runs
      ensures Ticks() && acts == old(acts) + [SweepRetry(key)]
      ensures store.runs == old(store.runs)[key := old(store.runs)[key].(state := Claimed, notBefore := None)]
      ensures tasks == old(tasks)[key := Launched]
    {
      ReclaimRow(key);
      tasks := tasks[key := Launched];
      RetryingHasNoTask(key);
      Record(SweepRetry(key));
    }

    lemma RetryingHasNoTask(key: Key)
      requires IsRun(cfg, acts, past) && World().pc == Idle
      requires key in World().runs && World().runs[key].state == Retrying
      ensures key !in World().tasks
    {
      RunIsGrounded(cfg, acts, past);
      assert key in World().tasks ==> TaskOk(World(), key);
    }

    /** Is `may` those of the due rows that may be launched? */
    ghost predicate Sorted(was: Runs, due: seq<Key>, may: set<Key>)
      reads this`inflight, store`clock
    {
      && (forall k :: k in due ==> k in was && was[k].state == Retrying && (k in may <==> MayRetry(k)))
      && (forall i, j :: 0 <= i < j < |due| ==> due[i] != due[j])
    }

    method SweepNextRow(ghost was: Runs, ghost tasks0: map<Key, Phase>, due: seq<Key>, ghost may: set<Key>, i: nat)
      requires i < |due| && Sorted(was, due, may) && Swept(was, tasks0, Taken(due, may, i))
      modifies this`acts, this`past, this`tasks, store`runs
      ensures Swept(was, tasks0, Taken(due, may, i + 1)) && old(acts) <= acts
    {
      var key := due[i];
      assert key in due;
      TakenMeans(due, may, i);
      if MayRetry(key) {
        SweepRow(key);
        SweepNext(was, tasks0, Taken(due, may, i), key);
      }
    }

    /** `_sweep_retries`: exactly the due retries of enabled, healthy jobs with a free
        slot are claimed and launched; no other row moves. */
    method SweepRetries(now: int)
      requires Ticks()
      modifies this`acts, this`past, this`tasks, store`runs
      ensures Ticks() && old(acts) <= acts
      ensures Swept(old(store.runs), old(tasks), Launchable(cfg, old(store.runs), old(store.clock), inflight, now))
      ensures OnlyTakenUp(cfg, old(store.runs), store.runs, store.clock, inflight, now)
    {
      SweepMeans(cfg, store.runs, store.clock, inflight, now);
      ghost var was, tasks0 := store.runs, tasks;
      ghost var may := Launchable(cfg, store.runs, store.clock, inflight, now);
      var due := store.DueRetries(now);
      SweepNothing(was, tasks0);
      SweepAll(was, tasks0, due, may);
      TakenMeans(due, may, |due|);
      assert Taken(due, may, |due|) == may;
    }

    /** The loop of `_sweep_retries` over the due rows. */
    method SweepAll(ghost was: Runs, ghost tasks0: map<Key, Phase>, due: seq<Key>, ghost may: set<Key>)
      requires Swept(was, tasks0, {}) && Sorted(was, due, may)
      modifies this`acts, this`past, this`tasks, store`runs
      ensures Swept(was, tasks0, Taken(due, may, |due|)) && old(acts) <= acts
    {
      for i := 0 to |due|
        invariant Swept(was, tasks0, Taken(due, may, i)) && old(acts) <= acts
      {
        SweepNextRow(was, tasks0, due, may, i);
      }
    }

    lemma SweepNothing(was: Runs, tasks0: map<Key, Phase>)
      ensures SweepRows(was, {}) == was && LaunchAll(tasks0, {}) == tasks0
    {
    }

    // --- triggered jobs ------------------------------------------------------------

    /** One upstream: a fresh success, a fresh failure, or nothing new. */
    method JudgeUpstream(up: string, last: Option<int>) returns (v: Verdict)
      ensures v == Judge(store.runs, last, up)
    {
      var ok := store.LastSuccessFire(up);
      if ok.Some? && Newer(ok.value, last) {
        return Fresh(ok.value);
      }
      var lr := store.NewestRun(up);
      if lr.Some? && Failure(store.runs[lr.value].state) && Newer(lr.value.fire, last) {
        return Broken(lr.value.fire);
      }
      return Quiet;
    }

    /** The loop over a job's upstreams: one verdict at a time, into three accumulators. */
    method Poll(ups: seq<string>, last: Option<int>) returns (t: Tally)
      ensures t == TallyOf(store.runs, last, ups)
    {
      var readyAt: Option<int>, failed: Option<(string, int)>, pending := None, None, false;
      for i := 0 to |ups|
        invariant Tally(readyAt, failed, pending) == TallyOf(store.runs, last, ups[..i])
      {
        assert ups[..i + 1][..i] == ups[..i];
        var v := JudgeUpstream(ups[i], last);
        match v
        case Fresh(fire) =>
          if readyAt.None? || fire > readyAt.value {
            readyAt := Some(fire);
          }
        case Broken(fire) => failed := Some((ups[i], fire));
        case Quiet => pending := true;
      }
      assert ups[..|ups|] == ups;
      t := Tally(readyAt, failed, pending);
    }

    /** The run already counts the claim of `key` that the store is about to make. */
    ghost predicate ClaimNoted(key: Key)
      reads this, store
    {
      && Configured(jobs, cfg, crons) && IsRun(cfg, acts, past) && !stopping
      && World().runs == InsertIfAbsent(store.runs, key, CLAIMED_ROW) && World().clock == store.clock
      && World().tasks == (if key in store.runs then tasks else tasks[key := Launched])
      && World().pc == Idle && World().mode == Up
      && (key !in store.runs ==> key !in tasks)
      && (forall k :: k in running <==> k in tasks && tasks[k] != Launched)
      && Counted() && forall j :: j in cfg ==> j in since
    }

    /** Notes the claim of a triggered fire, if the store is going to grant it. */
    ghost method NoteTrigger(key: Key, up: Key)
      requires Ticks() && (key !in store.runs ==> Enabled(cfg, World(), Claim(key, ByUpstream(up))))
      modifies this`acts, this`past
      ensures ClaimNoted(key)
      ensures acts == old(acts) + if key in store.runs then [] else [Claim(key, ByUpstream(up))]
    {
      TaskIsStored(key);
      if key !in store.runs {
        RecordGated(Claim(key, ByUpstream(up)));
      }
    }

    /** `store.claim` for a triggered fire and, when this caller won, `_launch`. */
    method ClaimTriggered(key: Key) returns (won: bool)
      requires ClaimNoted(key)
      modifies this`tasks, this`blockedSince, store`runs
      ensures Ticks() && (won <==> key !in old(store.runs))
      ensures store.runs == InsertIfAbsent(old(store.runs), key, CLAIMED_ROW)
      ensures tasks == if won then old(tasks)[key := Launched] else old(tasks)
      ensures blockedSince == if won then old(blockedSince) - {key.job} else old(blockedSince)
    {
      won := store.Claim(key);
      if won {
        blockedSince := blockedSince - {key.job};
        tasks := tasks[key := Launched];
      }
    }

    /** Is `up` the failed newest run that the gate blocks the job on? */
    ghost predicate BlockedBy(job: Job, up: Key)
      reads this`past
      requires past != []
    {
      && job.name in cfg && cfg[job.name] == job && FailedLast(cfg, World(), job.name, up)
      && GateFor(cfg, World(), job.name) == Blocked(up.job, up.fire) && IsLastRun(World().runs, up.job, up)
    }

    /** `record_skip`: a SKIPPED row, unless the fire has a row already. */
    method NoteSkip(job: Job, ghost up: Key, fire: int, now: int)
      requires Ticks() && fire == up.fire && BlockedBy(job, up) && job.onUpstreamFailure != RunOnFailure
      modifies this`acts, this`past, store`runs
      ensures Valid() && World().mode == Up && World().pc == SkipNoted(job.name, fire)
      ensures acts == old(acts) + [SkipTriggered(job.name, up, now)]
      ensures store.runs == InsertIfAbsent(old(store.runs), Key(job.name, fire, 1), SkippedRow(now))
    {
      var made := store.RecordSkip(job.name, fire, now);
      RecordGated(SkipTriggered(job.name, up, now));
    }

    /** The clock row moves on past a skipped fire. */
    method CloseSkip(job: string, fire: int)
      requires Valid() && World().mode == Up && World().pc == SkipNoted(job, fire)
      modifies this`acts, this`past, store`clock
      ensures Ticks() && acts == old(acts) + [OweSetFire]
      ensures store.clock == SetLastFire(old(store.clock), job, fire)
    {
      store.PutLastFire(job, fire);
      Record(OweSetFire);
    }

    method SkipFireOf(job: Job, ghost up: Key, fire: int, now: int)
      requires Ticks() && fire == up.fire && BlockedBy(job, up) && job.onUpstreamFailure != RunOnFailure
      modifies this`acts, this`past, this`blockedSince, store
      ensures Ticks() && acts == old(acts) + [SkipTriggered(job.name, up, now), OweSetFire]
      ensures store.runs == InsertIfAbsent(old(store.runs), Key(job.name, fire, 1), SkippedRow(now))
      ensures store.clock == SetLastFire(old(store.clock), job.name, fire)
      ensures blockedSince == old(blockedSince) - {job.name}
      ensures FireSet(old(store.clock), store.clock, job.name, fire)
    {
      SetLastFireMeans(store.clock, job.name, fire);
      TwoSteps(acts, SkipTriggered(job.name, up, now), OweSetFire);
      blockedSince := blockedSince - {job.name};
      NoteSkip(job, up, fire, now);
      CloseSkip(job.name, fire);
    }

    /** The policy of `_on_upstream_failure`: `wait` remembers since when it waits. */
    method ReactNow(job: Job, now: int) returns (r: Reaction)
      modifies this`blockedSince
      ensures r == React(job, old(blockedSince), now)
      ensures View() == Remembered(job, old(View()), now)
    {
      if job.onUpstreamFailure == WaitOnFailure {
        if job.name !in blockedSince {
          blockedSince := blockedSince[job.name := now];
        }
        return if GivesUp(job, blockedSince[job.name], now) then SkipFire else Hold;
      }
      return if job.onUpstreamFailure == RunOnFailure then RunAnyway else SkipFire;
    }

    /** The tables and the wait marks the trigger loop works on. */
    function View(): TriggerView
      reads this`blockedSince, store
    {
      TriggerView(store.runs, store.clock, blockedSince)
    }

    /** Despite the failure the job runs, if it has a free slot. */
    method RunDespite(job: Job, ghost up: Key, fire: int)
      requires Ticks() && fire == up.fire && BlockedBy(job, up) && job.onUpstreamFailure == RunOnFailure
      modifies this`acts, this`past, this`tasks, this`blockedSince, store`runs
      ensures Ticks() && old(acts) <= acts
      ensures View() == ClaimStep(job, fire, old(View()), Inflight(job.name))
    {
      if Inflight(job.name) < job.concurrency {
        NoteTrigger(Key(job.name, fire, 1), up);
        var won := ClaimTriggered(Key(job.name, fire, 1));
      }
    }

    /** `_on_upstream_failure`: hold, run anyway, or skip the fire. */
    method OnUpstreamFailure(job: Job, ghost up: Key, fire: int, now: int)
      requires Ticks() && BlockedBy(job, up) && fire == up.fire
      modifies this`acts, this`past, this`tasks, this`blockedSince, store
      ensures Ticks() && old(acts) <= acts
      ensures View() == BlockedStep(job, fire, old(View()), Inflight(job.name), now)
      ensures ReactsTo(job, fire, old(View()), View(), Inflight(job.name), now)
    {
      BlockedStepMeans(job, fire, View(), Inflight(job.name), now);
      var r := ReactNow(job, now);
      CarryOut(r, job, up, fire, now);
    }

    method CarryOut(r: Reaction, job: Job, ghost up: Key, fire: int, now: int)
      requires Ticks() && BlockedBy(job, up) && fire == up.fire
      requires r == RunAnyway ==> job.onUpstreamFailure == RunOnFailure
      requires r == SkipFire ==> job.onUpstreamFailure != RunOnFailure
      modifies this`acts, this`past, this`tasks, this`blockedSince, store
      ensures Ticks() && old(acts) <= acts
      ensures View() == Respond(r, job, fire, old(View()), Inflight(job.name), now)
    {
      match r
      case Hold =>
      case RunAnyway => RunDespite(job, up, fire);
      case SkipFire => SkipFireOf(job, up, fire, now);
    }

    /** The gate said go: claim the fire of the newest upstream success. */
    method GoAhead(job: Job, fire: int)
      requires Ticks() && job.name in cfg && cfg[job.name] == job
      requires GateFor(cfg, World(), job.name) == Go(fire)
      modifies this`acts, this`past, this`tasks, this`blockedSince, store`runs
      ensures Ticks() && old(acts) <= acts
      ensures View() == ClaimStep(job, fire, old(View()), Inflight(job.name))
    {
      if Inflight(job.name) < job.concurrency {
        ghost var up := GoHasWitness(World().runs, StateOf(World().clock, job.name).lastFire, job.after);
        NoteTrigger(Key(job.name, fire, 1), up);
        var won := ClaimTriggered(Key(job.name, fire, 1));
      }
    }

    /** The gate is blocked: react to the failed upstream it names. */
    method FallBack(job: Job, fire: int, now: int)
      requires Ticks() && job.name in cfg && cfg[job.name] == job
      requires GateFor(cfg, World(), job.name).Blocked? && GateFor(cfg, World(), job.name).fire == fire
      modifies this`acts, this`past, this`tasks, this`blockedSince, store
      ensures Ticks() && old(acts) <= acts
      ensures View() == BlockedStep(job, fire, old(View()), Inflight(job.name), now)
    {
      ghost var up := BlockedHasWitness(World().runs, StateOf(World().clock, job.name).lastFire, job.after);
      OnUpstreamFailure(job, up, fire, now);
    }

    /** `_dispatch_triggered` for one job: past the breaker, the gate decides. */
    method DispatchTriggeredJob(job: Job, now: int)
      requires Ticks() && job.name in cfg && cfg[job.name] == job && job.Triggered()
      modifies this`acts, this`past, this`tasks, this`blockedSince, store
      ensures Ticks() && old(acts) <= acts
      ensures View() == TriggerStep(job, old(View()), Inflight(job.name), now)
      ensures Triggers(job, old(View()), View(), Inflight(job.name), now)
    {
      TriggerStepMeans(job, View(), Inflight(job.name), now);
      PassBreaker(job, now);
    }

    /** The same, as the function of Rules. */
    method PassBreaker(job: Job, now: int)
      requires Ticks() && job.name in cfg && cfg[job.name] == job && job.Triggered()
      modifies this`acts, this`past, this`tasks, this`blockedSince, store
      ensures Ticks() && old(acts) <= acts
      ensures View() == TriggerStep(job, old(View()), Inflight(job.name), now)
    {
      var state := StateOf(store.clock, job.name);
      if state.IsQuarantined() {
        var through := QuarantineLetsFireThrough(job, state, now);
        if !through {
          return;
        }
      }
      var t := Poll(job.after, state.lastFire);
      match Decide(t)
      case Wait =>
      case Go(fire) => GoAhead(job, fire);
      case Blocked(_, fire) => FallBack(job, fire, now);
    }

    method DispatchTriggeredNext(ghost v: TriggerView, i: nat, nows: nat -> int)
      requires Ticks() && i < |jobs| && View() == TriggerAll(jobs, i, v, inflight, nows)
      modifies this`acts, this`past, this`tasks, this`blockedSince, store
      ensures Ticks() && old(acts) <= acts && View() == TriggerAll(jobs, i + 1, v, inflight, nows)
    {
      var job := jobs[i];
      if job.enabled && job.Triggered() {
        DispatchTriggeredJob(job, nows(i));
      }
    }

    /** `_dispatch_triggered`: the enabled triggered jobs in turn. */
    method DispatchTriggered(nows: nat -> int)
      requires Ticks()
      modifies this`acts, this`past, this`tasks, this`blockedSince, store
      ensures Ticks() && old(acts) <= acts
      ensures View() == TriggerAll(jobs, |jobs|, old(View()), inflight, nows)
    {
      ghost var v := View();
      for i := 0 to |jobs|
        invariant Ticks() && old(acts) <= acts
        invariant View() == TriggerAll(jobs, i, v, inflight, nows)
      {
        DispatchTriggeredNext(v, i, nows);
      }
    }

    // --- catch-up --------------------------------------------------------------------

    /** `_plan_catch_up`: the fires to replay; the cursor moves past what was missed. */
    method PlanCatchUp(job: Job, now: int) returns (fires: seq<int>)
      requires Ticks() && job.name in cfg && cfg[job.name] == job
      modifies this`acts, this`past, this`since, store`clock
      ensures Ticks() && old(acts) <= acts
      ensures var state := old(StateOf(store.clock, job.name));
        if job.Triggered() then fires == [] && since == old(since)
        else if state.IsQuarantined() || state.lastFire.None? then fires == [] && since == old(since)[job.name := now]
        else
          var missed := Once(crons[job.name], FiresIn(crons[job.name], state.lastFire.value, now));
          && fires == Replay(missed, job.missed, job.catchUpCap)
          && since == old(since)[job.name := Cursor(missed, state.lastFire.value)]
      ensures store.clock == MissedClock(job, crons, old(store.clock), now)
      ensures CatchesUp(job, crons, old(Dues()), Dues(), fires, now)
    {
      ghost var v := Dues();
      if job.Triggered() {
        fires := [];
      } else {
        fires := PlanMissed(job, now);
      }
      CatchUpIs(job, crons, v, Dues(), fires, now);
    }

    /** The plan of a job with a clock. */
    method PlanMissed(job: Job, now: int) returns (fires: seq<int>)
      requires Ticks() && job.name in cfg && cfg[job.name] == job && !job.Triggered()
      modifies this`acts, this`past, this`since, store`clock
      ensures Ticks() && old(acts) <= acts
      ensures var state := old(StateOf(store.clock, job.name));
        if state.IsQuarantined() || state.lastFire.None? then fires == [] && since == old(since)[job.name := now]
        else
          var missed := Once(crons[job.name], FiresIn(crons[job.name], state.lastFire.value, now));
          && fires == Replay(missed, job.missed, job.catchUpCap)
          && since == old(since)[job.name := Cursor(missed, state.lastFire.value)]
      ensures store.clock == MissedClock(job, crons, old(store.clock), now)
    {
      var state := StateOf(store.clock, job.name);
      if state.IsQuarantined() || state.lastFire.None? {
        since := since[job.name := now];
        return [];
      }
      var missed := FiresBetween(crons[job.name], state.lastFire.value, now);
      if missed == [] {
        since := since[job.name := state.lastFire.value];
        return [];
      }
      fires := TakeMissed(job, missed);
    }

    /** The cursor moves past what was missed; the policy says what is replayed. */
    method TakeMissed(job: Job, missed: seq<int>) returns (fires: seq<int>)
      requires Ticks() && job.name in cfg && cfg[job.name] == job && !job.Triggered() && missed != []
      modifies this`acts, this`past, this`since, store`clock
      ensures Ticks() && old(acts) <= acts
      ensures fires == Replay(missed, job.missed, job.catchUpCap)
      ensures since == old(since)[job.name := missed[|missed| - 1]]
      ensures store.clock == if job.missed == SkipMissed then SetLastFire(old(store.clock), job.name, missed[|missed| - 1])
                             else old(store.clock)
    {
      since := since[job.name := missed[|missed| - 1]];
      if job.missed == SkipMissed {
        SkipOver(job, missed[|missed| - 1]);
      }
      fires := ChooseReplay(missed, job.missed, job.catchUpCap);
    }

    /** `on_missed = "skip"`: the clock row moves past what was missed. */
    method SkipOver(job: Job, fire: int)
      requires Ticks() && job.name in cfg && cfg[job.name] == job && !job.Triggered()
      modifies this`acts, this`past, store`clock
      ensures Ticks() && acts == old(acts) + [CatchUpSkip(job.name, fire)]
      ensures store.clock == SetLastFire(old(store.clock), job.name, fire)
    {
      store.PutLastFire(job.name, fire);
      Record(CatchUpSkip(job.name, fire));
    }

    /** One turn of `_run_sequence`: claim the next missed fire, unless the daemon is
        draining, and run it in this very task. */
    method RunSequenceNext(job: Job, fire: int) returns (begun: bool)
      requires AtRest() && job.name in cfg && cfg[job.name] == job && !job.Triggered()
      modifies this`acts, this`past, this`inflight, this`running, this`tasks, store`runs
      ensures AtRest() && begun == (!stopping && Key(job.name, fire, 1) !in old(store.runs))
      ensures store.runs == if begun then old(store.runs)[Key(job.name, fire, 1) := CLAIMED_ROW.(state := Running)]
                            else old(store.runs)
      ensures acts == old(acts) +
        if begun then [Claim(Key(job.name, fire, 1), ByClock), StartTask(Key(job.name, fire, 1))] else []
    {
      if stopping {
        return false;
      }
      begun := ClaimAndLaunch(Key(job.name, fire, 1), ByClock);
      if begun {
        ExecuteBegin(Key(job.name, fire, 1));
      }
    }

    // --- the outside -------------------------------------------------------------------

    /** `punctual trigger`: queue a manual run of a known job, unless this daemon is the
        standby of a cluster. */
    method Trigger(job: string, cluster: bool, leader: bool) returns (answer: TriggerAnswer)
      requires Valid()
      modifies this`adhoc
      ensures Valid() && adhoc == old(adhoc) + if answer == Queued then [job] else []
      ensures answer == Queued <==> job in cfg && (!cluster || leader)
      ensures answer == UnknownJob <==> job !in cfg
    {
      if job !in cfg {
        return UnknownJob;
      }
      if cluster && !leader {
        return NotLeader;
      }
      adhoc := adhoc + [job];
      return Queued;
    }

    /** `punctual resume`, written to the store between two ticks. */
    method Resume(job: string, now: int)
      requires Valid() && World().pc == Idle && job in cfg
      modifies this`acts, this`past, store`clock
      ensures Valid() && acts == old(acts) + [RequestResume(job, now)]
      ensures store.clock == RaiseResume(old(store.clock), job, now)
    {
      store.RequestResume(job, now);
      Record(RequestResume(job, now));
    }

    /** `request_drain`: nothing is dispatched from here on. */
    method RequestDrain()
      requires Ticks()
      modifies this`acts, this`past, this`stopping
      ensures AtRest() && stopping && acts == old(acts) + [Drain]
    {
      stopping := true;
      Record(Drain);
    }

    /** The drained daemon exits: what it leaves is final or waiting for a retry, so
        the next one has nothing to recover. */
    method ExitDrained()
      requires AtRest() && stopping && tasks == map[]
      modifies this`acts, this`past, this`stopping
      ensures Tracked() && World().mode == Down && acts == old(acts) + [Exit]
      ensures forall k :: k in store.runs ==> !Active(store.runs[k].state)
    {
      stopping := false;
      Record(Exit);
      forall k | k in store.runs
        ensures !Active(store.runs[k].state)
      {
        DrainLeavesNothingOpen(cfg, acts, past, |acts| - 1, k);
      }
    }

    /** One pass of the loop of `_lead`: manual triggers, due fires, retries, triggered
        jobs, each on what those before it wrote. */
    method Tick(t: Clocks)
      requires Ticks()
      modifies this`acts, this`past, this`tasks, this`since, this`adhoc, this`blockedSince, store
      ensures Ticks() && old(acts) <= acts && adhoc == [] && Scheduled(jobs, crons, old(since))
      ensures var d := TickDue(jobs, cfg, crons, old(adhoc), old(Dues()), inflight, t);
        since == d.since && View() == TickTriggers(jobs, cfg, d, old(blockedSince), inflight, t)
      ensures Serves(jobs, cfg, crons, old(adhoc), old(Dues()), inflight, t, store.runs)
    {
      JobsAreScheduled();
      TickServes(jobs, cfg, crons, adhoc, Dues(), blockedSince, inflight, t);
      DispatchAll(t);
    }

    /** The same, as the functions of Rules. */
    method DispatchAll(t: Clocks)
      requires Ticks()
      modifies this`acts, this`past, this`tasks, this`since, this`adhoc, this`blockedSince, store
      ensures Ticks() && old(acts) <= acts && adhoc == [] && Scheduled(jobs, crons, old(since))
      ensures var d := TickDue(jobs, cfg, crons, old(adhoc), old(Dues()), inflight, t);
        since == d.since && View() == TickTriggers(jobs, cfg, d, old(blockedSince), inflight, t)
    {
      DispatchClocked(t);
      DispatchWaiting(t);
    }

    /** Manual triggers, then due fires. */
    method DispatchClocked(t: Clocks)
      requires Ticks()
      modifies this`acts, this`past, this`tasks, this`since, this`adhoc, store
      ensures Ticks() && old(acts) <= acts && adhoc == [] && Scheduled(jobs, crons, old(since))
      ensures Dues() == TickDue(jobs, cfg, crons, old(adhoc), old(Dues()), inflight, t)
    {
      DispatchAdhoc(t.adhoc);
      DispatchDue(t.due);
    }

    /** Due retries, then triggered jobs. */
    method DispatchWaiting(t: Clocks)
      requires Ticks()
      modifies this`acts, this`past, this`tasks, this`blockedSince, store
      ensures Ticks() && old(acts) <= acts
      ensures View() == TickTriggers(jobs, cfg, old(Dues()), old(blockedSince), inflight, t)
    {
      SweepRetries(t.sweep);
      DispatchTriggered(t.trigger);
    }
  }
}
