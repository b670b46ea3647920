/** The run lifecycle of one daemon (`cluster=False`) as a step relation.

    A step is one store statement together with the in-memory bookkeeping that
    follows it, or one event of the environment. Because asyncio is single
    threaded, a block between two awaits is not interleaved with other blocks:
    what the block still owes is its continuation `pc`. A crash may strike in any
    state, so also between two statements of a block. It loses `tasks` and `pc`. */
module Lifecycle {
  import opened Models
  import opened Tables
  import opened Gate

  type Config = map<string, Job>

  /** A task started with `create_task(_execute_run(…))` that has not finished:
      not begun, RUNNING written, or its process spawned. */
  datatype Phase = Launched | Marked | Spawned

  datatype Pc =
    | Idle
    | Ended(key: Key, outcome: RunState, recovering: bool)    // outcome written; set_last_fire is next
    | Verdict(key: Key, outcome: RunState, recovering: bool)  // then a retry row or the health update
    | GoneLost(key: Key)                                      // LOST written; retry row or health is next
    | Recovered(key: Key)                                     // set_last_fire closes a recovered row
    | SkipNoted(job: string, fire: int)                       // set_last_fire closes a skipped fire

  datatype Mode = Down | Recovering(todo: set<Key>) | Up | Draining

  /** History: where an attempt came from. */
  datatype Origin = ByClock | ByOperator | ByUpstream(up: Key) | ByRetry

  /** History: the health updates, and the operator's resumes as they took effect. */
  datatype HealthEvent = Counted(key: Key, failed: bool) | Resumed(job: string)

  datatype State = State(
    runs: Runs,
    clock: Clock,
    tasks: map<Key, Phase>,
    pc: Pc,
    mode: Mode,
    spawns: multiset<Key>,
    origin: map<Key, Origin>,
    health: seq<HealthEvent>)

  const INIT := State(map[], map[], map[], Idle, Down, multiset{}, map[], [])

  datatype Action =
    // start-up and `_recover`
    | Boot
    | RecoverRetrying(key: Key)
    | RecoverClaimed(key: Key)
    | RecoverSentinel(key: Key, outcome: RunState, now: int)
    | RecoverLost(key: Key, now: int)
    | RecoverDone
    // what a block owes after its first statement
    | OweSetFire
    | OweRetry(notBefore: int)
    | OweHealth(now: int)
    // claims, skips and sweeps of the tick loop
    | Claim(key: Key, from: Origin)
    | SkipTriggered(job: string, up: Key, now: int)
    | SweepRetry(key: Key)
    | ClearQuarantine(job: string, now: int)
    | SkipQuarantined(job: string, fire: int, now: int)
    | CatchUpSkip(job: string, fire: int)
    // the life of a task
    | StartTask(key: Key)
    | SpawnTask(key: Key)
    | RecordPid(key: Key, pid: int)
    | FinishTask(key: Key, outcome: RunState, now: int)
    // the outside
    | RequestResume(job: string, now: int)
    | Drain
    | Exit
    | Crash

  predicate Undecided(pc: Pc, key: Key) {
    match pc
    case Ended(k, _, _) => k == key
    case Verdict(k, _, _) => k == key
    case GoneLost(k) => k == key
    case _ => false
  }

  /** Does the retry policy give the attempt a successor? (`run.attempt <= job.retries.max`) */
  predicate EarnsRetry(job: Job, attempt: int, outcome: RunState) {
    Retryable(outcome) && attempt <= job.retries.max
  }

  ghost function GateFor(cfg: Config, s: State, job: string): Decision
    requires job in cfg
  {
    GateOf(s.runs, StateOf(s.clock, job).lastFire, cfg[job].after)
  }

  /** Is a task's block allowed to run: no other block is, and the loop is alive. */
  predicate LoopIdle(s: State) { s.pc == Idle && (s.mode == Up || s.mode == Draining) }

  /** May the tick loop dispatch? */
  predicate Ticking(cfg: Config, s: State, job: string) { s.pc == Idle && s.mode == Up && job in cfg }

  /** The checks that precede a step, but for the trigger gate. `up` is the
      upstream row a trigger consumes, or the failed one it reacts to. */
  ghost predicate Guard(cfg: Config, s: State, a: Action) {
    match a
    case Boot => s.mode == Down && s.pc == Idle
    case RecoverRetrying(k) => Recovering1(s, k, Retrying)
    case RecoverClaimed(k) => Recovering1(s, k, Claimed)
    case RecoverSentinel(k, o, _) =>
      && Recovering1(s, k, Running) && s.spawns[k] > 0  // the wrapper of a spawned run wrote the file
      && Outcome(o)
    case RecoverLost(k, _) => Recovering1(s, k, Running)
    case RecoverDone => s.pc == Idle && s.mode == Recovering({})
    case OweSetFire => s.pc.Ended? || s.pc.Recovered? || s.pc.SkipNoted?
    case OweRetry(_) =>
      || (s.pc.Verdict? && s.pc.key.job in cfg && EarnsRetry(cfg[s.pc.key.job], s.pc.key.attempt, s.pc.outcome))
      || (s.pc.GoneLost? && s.pc.key.job in cfg && cfg[s.pc.key.job].EffectiveOnLost() == LostRetries)
    case OweHealth(_) =>
      || (s.pc.Verdict? && s.pc.key.job in cfg && !EarnsRetry(cfg[s.pc.key.job], s.pc.key.attempt, s.pc.outcome))
      || (s.pc.GoneLost? && s.pc.key.job in cfg && cfg[s.pc.key.job].EffectiveOnLost() == LostFails)
    case Claim(k, from) =>
      && Ticking(cfg, s, k.job) && k.attempt == 1 && k !in s.runs && MayClaim(cfg, s, k, from)
    case SkipTriggered(j, up, _) =>
      Ticking(cfg, s, j) && FailedLast(cfg, s, j, up) && cfg[j].onUpstreamFailure != RunOnFailure
    case SweepRetry(k) =>
      && Ticking(cfg, s, k.job) && k in s.runs && s.runs[k].state == Retrying
      && !StateOf(s.clock, k.job).IsQuarantined()
    case ClearQuarantine(j, _) =>
      Ticking(cfg, s, j) && StateOf(s.clock, j).IsQuarantined() && StateOf(s.clock, j).resumeRequested
    case SkipQuarantined(j, _, _) =>
      Ticking(cfg, s, j) && !cfg[j].Triggered() && StateOf(s.clock, j).IsQuarantined()
    case CatchUpSkip(j, _) => Ticking(cfg, s, j) && !cfg[j].Triggered()
    case StartTask(k) => LoopIdle(s) && k in s.tasks && s.tasks[k] == Launched
    case SpawnTask(k) => LoopIdle(s) && k in s.tasks && s.tasks[k] == Marked
    case RecordPid(k, _) => LoopIdle(s) && k in s.tasks && s.tasks[k] == Spawned
    case FinishTask(k, o, _) =>
      && LoopIdle(s) && k in s.tasks
      && ((s.tasks[k] == Spawned && Outcome(o))
          || (s.tasks[k] == Marked && o == Failed))  // exit code 127: the command could not be spawned
    case RequestResume(j, _) => s.pc == Idle && j in cfg
    case Drain => s.pc == Idle && s.mode == Up
    case Exit => s.pc == Idle && s.mode == Draining && s.tasks == map[]
    case Crash => true
  }

  /** A clock claims for a clock-driven job, the operator for any job, and an
      upstream run for a job that names it, at its own fire. */
  predicate MayClaim(cfg: Config, s: State, key: Key, from: Origin)
    requires key.job in cfg
  {
    match from
    case ByClock => !cfg[key.job].Triggered()
    case ByOperator => true
    case ByUpstream(up) =>
      && up.fire == key.fire && up in s.runs && up.job in cfg[key.job].after
      && (s.runs[up].state == Succeeded
          || (FailedLast(cfg, s, key.job, up) && cfg[key.job].onUpstreamFailure == RunOnFailure))
    case ByRetry => false
  }

  /** The newest attempt of its fire, and a failure. */
  predicate FailedLast(cfg: Config, s: State, job: string, up: Key)
    requires job in cfg
  {
    up in s.runs && up.job in cfg[job].after && Failure(s.runs[up].state) && up.Next() !in s.runs
  }

  /** The trigger gate's own verdict, which a triggered step acts on. */
  ghost predicate GateAgrees(cfg: Config, s: State, a: Action)
    requires Guard(cfg, s, a)
  {
    match a
    case Claim(k, ByUpstream(up)) =>
      if s.runs[up].state == Succeeded then GateFor(cfg, s, k.job) == Go(up.fire)
      else GateFor(cfg, s, k.job) == Blocked(up.job, up.fire) && IsLastRun(s.runs, up.job, up)
    case SkipTriggered(j, up, _) => GateFor(cfg, s, j) == Blocked(up.job, up.fire) && IsLastRun(s.runs, up.job, up)
    case _ => true
  }

  ghost predicate Enabled(cfg: Config, s: State, a: Action) {
    Guard(cfg, s, a) && GateAgrees(cfg, s, a)
  }

  predicate Recovering1(s: State, key: Key, state: RunState) {
    s.pc == Idle && s.mode.Recovering? && key in s.mode.todo && key in s.runs && s.runs[key].state == state
  }

  // --- the effect of a step, table by table ---------------------------------

  datatype Write = Nothing | Insert(key: Key, row: Row) | Update(key: Key, row: Row)

  /** The one statement on `runs` a step executes. */
  ghost function WriteOf(cfg: Config, s: State, a: Action): Write
    requires Guard(cfg, s, a)
    requires s.pc.Recovered? || s.pc.Idle? || s.pc.SkipNoted? || s.pc.key in s.runs
    requires forall k :: k in s.tasks ==> k in s.runs
  {
    match a
    case RecoverSentinel(k, o, now) => Update(k, s.runs[k].(state := o, finishedAt := Some(now)))
    case RecoverLost(k, now) => Update(k, s.runs[k].(state := Lost, finishedAt := Some(now)))
    case OweRetry(notBefore) =>
      if s.pc.key.Next() in s.runs then Nothing else Insert(s.pc.key.Next(), RetryRow(notBefore))
    case Claim(k, _) => Insert(k, CLAIMED_ROW)
    case SkipTriggered(j, up, now) =>
      if Key(j, up.fire, 1) in s.runs then Nothing else Insert(Key(j, up.fire, 1), SkippedRow(now))
    case SweepRetry(k) => Update(k, s.runs[k].(state := Claimed, notBefore := None))
    case StartTask(k) => Update(k, s.runs[k].(state := Running))
    case RecordPid(k, pid) => Update(k, s.runs[k].(pid := Some(pid)))
    case FinishTask(k, o, now) => Update(k, s.runs[k].(state := o, finishedAt := Some(now)))
    case _ => Nothing
  }

  function Put(runs: Runs, w: Write): Runs {
    match w
    case Nothing => runs
    case Insert(k, row) => runs[k := row]
    case Update(k, row) => runs[k := row]
  }

  /** The breaker after a fire's final outcome (`_update_health`). */
  function Judged(job: Job, state: JobState, outcome: RunState, now: int): JobState {
    if Failure(outcome) then
      var c := state.consecutive + 1;
      if state.IsQuarantined() || (job.quarantineAfter != 0 && c >= job.quarantineAfter)
      then state.(consecutive := c, quarantinedAt := Some(now))
      else state.(consecutive := c)
    else if state.IsQuarantined() then state.Cleared()
    else state.(consecutive := 0)
  }

  /** `_update_health` as it reaches the table: a success of a healthy job saves nothing. */
  function UpdateHealth(clock: Clock, job: Job, name: string, outcome: RunState, now: int): Clock {
    var state := StateOf(clock, name);
    if Failure(outcome) || state.IsQuarantined() || state.consecutive > 0
    then SaveJobState(clock, name, Judged(job, state, outcome, now), now)
    else clock
  }

  /** The outcome a block's continuation is about. */
  function OutcomeOf(pc: Pc): RunState
    requires pc.Verdict? || pc.GoneLost?
  {
    if pc.Verdict? then pc.outcome else Lost
  }

  ghost function ClockAfter(cfg: Config, s: State, a: Action): Clock
    requires Guard(cfg, s, a)
  {
    match a
    case OweSetFire =>
      if s.pc.SkipNoted? then SetLastFire(s.clock, s.pc.job, s.pc.fire)
      else SetLastFire(s.clock, s.pc.key.job, s.pc.key.fire)
    case OweHealth(now) =>
      UpdateHealth(s.clock, cfg[s.pc.key.job], s.pc.key.job, OutcomeOf(s.pc), now)
    case ClearQuarantine(j, now) => SaveJobState(s.clock, j, StateOf(s.clock, j).Cleared(), now)
    case SkipQuarantined(j, _, now) =>
      SaveJobState(s.clock, j, StateOf(s.clock, j).(skipped := StateOf(s.clock, j).skipped + 1), now)
    case CatchUpSkip(j, f) => SetLastFire(s.clock, j, f)
    case RequestResume(j, now) => RaiseResume(s.clock, j, now)
    case _ => s.clock
  }

  ghost function TasksAfter(cfg: Config, s: State, a: Action): map<Key, Phase>
    requires Guard(cfg, s, a)
  {
    match a
    case RecoverClaimed(k) => s.tasks[k := Launched]
    case Claim(k, _) => s.tasks[k := Launched]
    case SweepRetry(k) => s.tasks[k := Launched]
    case StartTask(k) => s.tasks[k := Marked]
    case SpawnTask(k) => s.tasks[k := Spawned]
    case OweRetry(_) => if s.pc.Verdict? then s.tasks - {s.pc.key} else s.tasks
    case OweHealth(_) => if s.pc.Verdict? then s.tasks - {s.pc.key} else s.tasks
    case Crash => map[]
    case _ => s.tasks
  }

  ghost function PcAfter(cfg: Config, s: State, a: Action): Pc
    requires Guard(cfg, s, a)
  {
    match a
    case RecoverClaimed(k) => Recovered(k)
    case RecoverSentinel(k, o, _) => Ended(k, o, true)
    case RecoverLost(k, _) => GoneLost(k)
    case OweSetFire => if s.pc.Ended? then Verdict(s.pc.key, s.pc.outcome, s.pc.recovering) else Idle
    case OweRetry(_) => if s.pc.GoneLost? || s.pc.recovering then Recovered(s.pc.key) else Idle
    case OweHealth(_) => if s.pc.GoneLost? || s.pc.recovering then Recovered(s.pc.key) else Idle
    case SkipTriggered(j, up, _) => SkipNoted(j, up.fire)
    case SkipQuarantined(j, f, _) => SkipNoted(j, f)
    case FinishTask(k, o, _) => Ended(k, o, false)
    case Crash => Idle
    case _ => s.pc
  }

  ghost function ModeAfter(cfg: Config, s: State, a: Action): Mode
    requires Guard(cfg, s, a)
  {
    match a
    case Boot => Recovering(OpenRuns(s.runs))
    case RecoverRetrying(k) => Recovering(s.mode.todo - {k})
    case RecoverClaimed(k) => Recovering(s.mode.todo - {k})
    case RecoverSentinel(k, _, _) => Recovering(s.mode.todo - {k})
    case RecoverLost(k, _) => Recovering(s.mode.todo - {k})
    case RecoverDone => Up
    case Drain => Draining
    case Exit => Down
    case Crash => Down
    case _ => s.mode
  }

  ghost function OriginAfter(cfg: Config, s: State, a: Action): map<Key, Origin>
    requires Guard(cfg, s, a)
  {
    match a
    case OweRetry(_) => if s.pc.key.Next() in s.origin then s.origin else s.origin[s.pc.key.Next() := ByRetry]
    case Claim(k, from) => s.origin[k := from]
    case SkipTriggered(j, up, _) =>
      if Key(j, up.fire, 1) in s.origin then s.origin else s.origin[Key(j, up.fire, 1) := ByUpstream(up)]
    case _ => s.origin
  }

  ghost function HealthAfter(cfg: Config, s: State, a: Action): seq<HealthEvent>
    requires Guard(cfg, s, a)
  {
    match a
    case OweHealth(_) => s.health + [Counted(s.pc.key, Failure(OutcomeOf(s.pc)))]
    case ClearQuarantine(j, _) => s.health + [Resumed(j)]
    case _ => s.health
  }

  /** What the effect of a step needs of the state; an invariant (see Invariants). */
  predicate Grounded(s: State) {
    && (s.pc.Recovered? || s.pc.Idle? || s.pc.SkipNoted? || s.pc.key in s.runs)
    && (forall k :: k in s.tasks ==> k in s.runs)
  }

  ghost function Apply(cfg: Config, s: State, a: Action): State
    requires Grounded(s) && Guard(cfg, s, a)
  {
    State(
      Put(s.runs, WriteOf(cfg, s, a)),
      ClockAfter(cfg, s, a),
      TasksAfter(cfg, s, a),
      PcAfter(cfg, s, a),
      ModeAfter(cfg, s, a),
      if a.SpawnTask? then s.spawns + multiset{a.key} else s.spawns,
      OriginAfter(cfg, s, a),
      HealthAfter(cfg, s, a))
  }

  /** One step from `s` to `t`. */
  ghost predicate Step(cfg: Config, s: State, a: Action, t: State) {
    Grounded(s) && Enabled(cfg, s, a) && t == Apply(cfg, s, a)
  }

  /** A run of the daemon from an empty store: the actions taken, and the states
      passed, one more than actions. */
  ghost predicate IsRun(cfg: Config, acts: seq<Action>, states: seq<State>) {
    && |states| == |acts| + 1 && states[0] == INIT
    && forall i :: 0 <= i < |acts| ==> StepAt(cfg, acts, states, i)
  }

  ghost predicate StepAt(cfg: Config, acts: seq<Action>, states: seq<State>, i: nat)
    requires i < |acts| && i + 1 < |states|
  {
    Step(cfg, states[i], acts[i], states[i + 1])
  }
}
