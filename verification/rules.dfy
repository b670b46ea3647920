/** What each block of the daemon (`scheduler.py`) decides and writes, as functions of the
    tables: the outcome of a run, the breaker, due fires, retries, triggered jobs,
    catch-up, and a whole tick. */
module Rules {
  import opened Models
  import opened Tables
  import opened Gate
  import opened Schedule
  import opened Lifecycle
  import opened Invariants

  /** What the wrapper process left behind: the exit file of a finished run. */
  datatype Sentinel = Sentinel(exitCode: int, signaled: bool)

  /** The outcome a sentinel stands for; killed while unsupervised counts as a timeout. */
  function SentinelOutcome(s: Sentinel): RunState {
    if s.exitCode == 0 then Succeeded else if s.signaled then TimedOut else Failed
  }

  function ExitOutcome(exitCode: int, timedOut: bool): RunState {
    if timedOut then TimedOut else if exitCode == 0 then Succeeded else Failed
  }

  datatype TriggerAnswer = Queued | UnknownJob | NotLeader

  /** A command that cannot be spawned comes back with this exit code. */
  const NOT_SPAWNED := 127

  /** The executing tasks of one job. */
  ghost function Load(running: set<Key>, job: string): int {
    |set k | k in running && k.job == job|
  }

  lemma LoadAdd(running: set<Key>, key: Key, job: string)
    requires key !in running
    ensures Load(running + {key}, job) == Load(running, job) + (if key.job == job then 1 else 0)
  {
    var before := set k | k in running && k.job == job;
    var after := set k | k in running + {key} && k.job == job;
    if key.job == job {
      assert after == before + {key};
    } else {
      assert after == before;
    }
  }

  lemma LoadRemove(running: set<Key>, key: Key, job: string)
    requires key in running
    ensures Load(running - {key}, job) == Load(running, job) - (if key.job == job then 1 else 0)
  {
    LoadAdd(running - {key}, key, job);
    assert running - {key} + {key} == running;
  }

  /** What a block does when its run has ended: the retry, or the health update. */
  function EndOf(job: Job, attempt: int, outcome: RunState, now: int): Action
    requires attempt >= 1
  {
    if EarnsRetry(job, attempt, outcome) then OweRetry(now + job.retries.DelayForAttempt(attempt)) else OweHealth(now)
  }

  /** The whole last block of a run. */
  function EndActions(job: Job, key: Key, outcome: RunState, now: int): seq<Action>
    requires key.attempt >= 1
  {
    [FinishTask(key, outcome, now), OweSetFire, EndOf(job, key.attempt, outcome, now)]
  }

  function EndOfLost(job: Job, now: int): Action {
    if job.EffectiveOnLost() == LostRetries then OweRetry(now) else OweHealth(now)
  }

  /** The configuration is fixed: unique names, a schedule for every clock-driven job. */
  ghost predicate Configured(jobs: seq<Job>, cfg: Config, crons: map<string, Cron>) {
    && (forall i :: 0 <= i < |jobs| ==> jobs[i].name in cfg && cfg[jobs[i].name] == jobs[i])
    && (forall i, j :: 0 <= i < j < |jobs| ==> jobs[i].name != jobs[j].name)
    && (forall j :: j in cfg ==> cfg[j].name == j && cfg[j] in jobs)
    && (forall j :: j in cfg && !cfg[j].Triggered() ==> j in crons && IsCron(crons[j]))
  }

  lemma TwoSteps(acts: seq<Action>, a: Action, b: Action)
    ensures acts + [a] + [b] == acts + [a, b]
  {
  }

  lemma ThreeSteps(acts: seq<Action>, a: Action, b: Action, c: Action)
    ensures acts + [a] + [b, c] == acts + [a, b, c]
  {
  }

  /** The body of `_update_health`: the breaker after a fire's final outcome, and
      whether the row has to be saved. */
  method NextHealth(job: Job, state: JobState, outcome: RunState, now: int) returns (next: JobState, dirty: bool)
    ensures next == Judged(job, state, outcome, now)
    ensures dirty <==> Failure(outcome) || state.IsQuarantined() || state.consecutive > 0
  {
    next, dirty := state, true;
    if Failure(outcome) {
      next := next.(consecutive := next.consecutive + 1);
      if next.IsQuarantined() {
        next := next.(quarantinedAt := Some(now));  // failed probe: restart the cooldown
      } else if job.quarantineAfter != 0 && next.consecutive >= job.quarantineAfter {
        next := next.(quarantinedAt := Some(now));
      }
    } else if next.IsQuarantined() {
      next := next.Cleared();
    } else if next.consecutive > 0 {
      next := next.(consecutive := 0);
    } else {
      dirty := false;
    }
  }

  /** What recovery makes of an open row: a CLAIMED one is launched as it is, a
      RETRYING one waits on, and a RUNNING one takes the outcome its wrapper
      recorded, unless its process is still alive or recorded nothing. */
  function RecoveredState(row: Row, matches: bool, sentinel: Option<Sentinel>): RunState {
    if row.state != Running then row.state
    else if !(row.pid.Some? && matches) && sentinel.Some? then SentinelOutcome(sentinel.value)
    else Lost
  }

  /** Does a quarantined job let a fire through: resumed by the operator, or idle
      with its cooldown over? */
  predicate LetsThrough(job: Job, state: JobState, inflight: int, now: int) {
    || state.resumeRequested
    || (job.quarantineCooldown.Some? && state.quarantinedAt.Some?
        && now - state.quarantinedAt.value >= job.quarantineCooldown.value && inflight == 0)
  }

  /** Is a fire of this job held back by the breaker? */
  predicate Held(job: Job, state: JobState, inflight: int, now: int) {
    state.IsQuarantined() && !LetsThrough(job, state, inflight, now)
  }

  /** The clock row once a fire was let through: an operator's resume takes effect. */
  function AfterBreaker(clock: Clock, job: string, now: int): Clock {
    var state := StateOf(clock, job);
    if state.IsQuarantined() && state.resumeRequested then SaveJobState(clock, job, state.Cleared(), now) else clock
  }

  /** The clock row once a fire was held back: counted, and passed over for good. */
  function AfterHold(clock: Clock, job: string, fire: int, now: int): Clock {
    var state := StateOf(clock, job);
    SetLastFire(SaveJobState(clock, job, state.(skipped := state.skipped + 1), now), job, fire)
  }

  ghost function SetOf(s: seq<Key>): set<Key> {
    set k | k in s
  }

  lemma SetOfNext(s: seq<Key>, i: nat)
    requires i < |s| && forall m, n :: 0 <= m < n < |s| ==> s[m] != s[n]
    ensures SetOf(s[..i + 1]) == SetOf(s[..i]) + {s[i]} && s[i] in SetOf(s) && s[i] !in SetOf(s[..i])
  {
    assert s[..i + 1] == s[..i] + [s[i]];
  }

  /** `read_sentinel` of a run directory. */
  function FileOf(files: map<Key, Sentinel>, key: Key): Option<Sentinel> {
    if key in files then Some(files[key]) else None
  }

  predicate ByClockNow(job: Job) { job.enabled && !job.Triggered() }

  /** The first attempts a tick claims for the clock-driven ones of the first `n` jobs. */
  ghost function DueClaims(jobs: seq<Job>, n: nat, crons: map<string, Cron>, since: map<string, int>,
                           passing: set<string>, now: int): set<Key>
    requires n <= |jobs| && Scheduled(jobs, crons, since)
  {
    if n == 0 then {}
    else
      var job := jobs[n - 1];
      var rest := DueClaims(jobs, n - 1, crons, since, passing, now);
      if !ByClockNow(job) || job.name !in passing then rest
      else match LastOf(FiresIn(crons[job.name], since[job.name], now))
        case None => rest
        case Some(fire) => rest + {Key(job.name, fire, 1)}
  }

  /** Where a tick leaves a job's cursor: at its newest due fire. */
  ghost function CursorAfter(job: Job, crons: map<string, Cron>, since: map<string, int>, now: int): int
    requires job.name in since && (!job.Triggered() ==> job.name in crons && IsCron(crons[job.name]))
  {
    if ByClockNow(job) then Cursor(FiresIn(crons[job.name], since[job.name], now), since[job.name]) else since[job.name]
  }

  function InflightOf(inflight: map<string, int>, job: string): int {
    if job in inflight then inflight[job] else 0
  }

  /** Is the due fire of a job claimed, as far as the breaker and the load say? */
  predicate Passes(job: Job, state: JobState, inflight: int, now: int) {
    !Held(job, state, inflight, now) && inflight < job.concurrency
  }

  /** What `_dispatch_due` works on. */
  datatype DueView = DueView(runs: Runs, clock: Clock, since: map<string, int>)

  /** A due fire: held back by the breaker, dropped because the job is busy, or claimed. */
  function FireStep(job: Job, fire: int, v: DueView, inflight: int, now: int): DueView {
    var state := StateOf(v.clock, job.name);
    if Held(job, state, inflight, now) then v.(clock := AfterHold(v.clock, job.name, fire, now))
    else
      var w := v.(clock := AfterBreaker(v.clock, job.name, now));
      if inflight >= job.concurrency then w
      else w.(runs := InsertIfAbsent(v.runs, Key(job.name, fire, 1), CLAIMED_ROW))
  }

  /** One clock-driven job: the newest due fire, if any, moves the cursor. */
  ghost function DueStep(job: Job, crons: map<string, Cron>, v: DueView, inflight: int, now: int): DueView
    requires job.name in v.since && (!job.Triggered() ==> job.name in crons && IsCron(crons[job.name]))
  {
    if !ByClockNow(job) then v
    else match LastOf(FiresIn(crons[job.name], v.since[job.name], now))
      case None => v
      case Some(fire) => FireStep(job, fire, v.(since := v.since[job.name := fire]), inflight, now)
  }

  ghost predicate Scheduled(jobs: seq<Job>, crons: map<string, Cron>, since: map<string, int>) {
    forall i :: 0 <= i < |jobs| ==>
      && jobs[i].name in since
      && (!jobs[i].Triggered() ==> jobs[i].name in crons && IsCron(crons[jobs[i].name]))
  }

  /** The first `n` jobs, one after the other. */
  ghost function DueAll(jobs: seq<Job>, n: nat, crons: map<string, Cron>, v: DueView, inflight: map<string, int>, now: int): (w: DueView)
    requires n <= |jobs| && Scheduled(jobs, crons, v.since)
    ensures w.since.Keys == v.since.Keys
  {
    if n == 0 then v
    else
      var w := DueAll(jobs, n - 1, crons, v, inflight, now);
      DueStep(jobs[n - 1], crons, w, InflightOf(inflight, jobs[n - 1].name), now)
  }

  /** INSERT … ON CONFLICT DO NOTHING of CLAIMED rows for all these keys. */
  ghost function AddClaims(runs: Runs, keys: set<Key>): Runs {
    map k | k in runs.Keys + keys :: if k in runs then runs[k] else CLAIMED_ROW
  }

  lemma AddClaimsNext(runs: Runs, keys: set<Key>, key: Key)
    ensures InsertIfAbsent(AddClaims(runs, keys), key, CLAIMED_ROW) == AddClaims(runs, keys + {key})
    ensures AddClaims(runs, {}) == runs
  {
  }

  /** Those of the first `i` keys that are in `may`. */
  ghost function Taken(keys: seq<Key>, may: set<Key>, i: nat): set<Key>
    requires i <= |keys|
  {
    if i == 0 then {}
    else if keys[i - 1] in may then Taken(keys, may, i - 1) + {keys[i - 1]}
    else Taken(keys, may, i - 1)
  }

  lemma {:induction false} TakenMeans(keys: seq<Key>, may: set<Key>, i: nat)
    requires i <= |keys| && forall m, n :: 0 <= m < n < |keys| ==> keys[m] != keys[n]
    ensures forall m :: 0 <= m < |keys| ==> (keys[m] in Taken(keys, may, i) <==> m < i && keys[m] in may)
    ensures forall k :: k in Taken(keys, may, i) ==> k in keys
  {
    if i > 0 {
      TakenMeans(keys, may, i - 1);
    }
  }

  /** May a retry that is due be launched: its job is enabled, not quarantined, and
      has a free slot? (Launching bumps no count: `_inflight` moves in the task.) */
  predicate RetryAllowed(cfg: Config, clock: Clock, inflight: map<string, int>, key: Key) {
    && key.job in cfg && cfg[key.job].enabled && !StateOf(clock, key.job).IsQuarantined()
    && InflightOf(inflight, key.job) < cfg[key.job].concurrency
  }

  /** The retries a sweep launches. */
  ghost function Launchable(cfg: Config, runs: Runs, clock: Clock, inflight: map<string, int>, now: int): set<Key> {
    set k | k in runs && IsDue(runs, now, k) && RetryAllowed(cfg, clock, inflight, k)
  }

  /** The rows once the retries in `keys` were moved from RETRYING to CLAIMED. */
  ghost function SweepRows(runs: Runs, keys: set<Key>): Runs {
    map k | k in runs :: if k in keys then runs[k].(state := Claimed, notBefore := None) else runs[k]
  }

  ghost function LaunchAll(tasks: map<Key, Phase>, keys: set<Key>): map<Key, Phase> {
    map k | k in tasks.Keys + keys :: if k in keys then Launched else tasks[k]
  }

  lemma SweepNext(runs: Runs, tasks: map<Key, Phase>, keys: set<Key>, key: Key)
    requires key in runs && key !in keys
    ensures SweepRows(runs, keys)[key := runs[key].(state := Claimed, notBefore := None)] == SweepRows(runs, keys + {key})
    ensures LaunchAll(tasks, keys)[key := Launched] == LaunchAll(tasks, keys + {key})
  {
  }

  /** Has a job blocked since `since` waited long enough to give up? */
  predicate GivesUp(job: Job, since: int, now: int) {
    job.waitTimeout.Some? && now - since >= job.waitTimeout.value
  }

  /** What a failed upstream makes of a triggered job. */
  datatype Reaction = Hold | RunAnyway | SkipFire

  /** What `_dispatch_triggered` works on. */
  datatype TriggerView = TriggerView(runs: Runs, clock: Clock, blockedSince: map<string, int>)

  /** A claim for a triggered fire, if the job has a free slot; a claim that wins
      ends the wait on an upstream. */
  function ClaimStep(job: Job, fire: int, v: TriggerView, inflight: int): TriggerView {
    var key := Key(job.name, fire, 1);
    if inflight >= job.concurrency || key in v.runs then v
    else v.(runs := v.runs[key := CLAIMED_ROW], blockedSince := v.blockedSince - {job.name})
  }

  /** A job that waits for an upstream remembers since when. */
  function Remembered(job: Job, v: TriggerView, now: int): TriggerView {
    if job.onUpstreamFailure == WaitOnFailure && job.name !in v.blockedSince
    then v.(blockedSince := v.blockedSince[job.name := now]) else v
  }

  /** Hold, run anyway, or record a skip and move the clock row past the fire. */
  function Respond(r: Reaction, job: Job, fire: int, v: TriggerView, inflight: int, now: int): TriggerView {
    match r
    case Hold => v
    case RunAnyway => ClaimStep(job, fire, v, inflight)
    case SkipFire => PassOver(job, fire, v, now)
  }

  /** The reaction to a failed upstream fire. */
  function BlockedStep(job: Job, fire: int, v: TriggerView, inflight: int, now: int): TriggerView {
    Respond(React(job, v.blockedSince, now), job, fire, Remembered(job, v, now), inflight, now)
  }

  /** A fire that is skipped for good. */
  function PassOver(job: Job, fire: int, v: TriggerView, now: int): TriggerView {
    TriggerView(
      InsertIfAbsent(v.runs, Key(job.name, fire, 1), SkippedRow(now)),
      SetLastFire(v.clock, job.name, fire),
      v.blockedSince - {job.name})
  }

  /** One triggered job: the breaker first, then what the gate decides on the rows. */
  ghost function TriggerStep(job: Job, v: TriggerView, inflight: int, now: int): TriggerView {
    var state := StateOf(v.clock, job.name);
    if Held(job, state, inflight, now) then v
    else
      var w := v.(clock := AfterBreaker(v.clock, job.name, now));
      match GateOf(v.runs, state.lastFire, job.after)
      case Wait => w
      case Go(fire) => ClaimStep(job, fire, w, inflight)
      case Blocked(_, fire) => BlockedStep(job, fire, w, inflight, now)
  }

  /** The triggered jobs among the first `n`, one after the other: a job sees the
      rows those before it have just written, and reads the clock anew. */
  ghost function TriggerAll(jobs: seq<Job>, n: nat, v: TriggerView, inflight: map<string, int>, nows: nat -> int): TriggerView
    requires n <= |jobs|
  {
    if n == 0 then v
    else
      var w := TriggerAll(jobs, n - 1, v, inflight, nows);
      var job := jobs[n - 1];
      if job.enabled && job.Triggered()
      then TriggerStep(job, w, InflightOf(inflight, job.name), nows(n - 1))
      else w
  }

  /** The policy `on_upstream_failure` of a job whose wait, if any, is on record. */
  function React(job: Job, blockedSince: map<string, int>, now: int): Reaction {
    match job.onUpstreamFailure
    case RunOnFailure => RunAnyway
    case SkipOnFailure => SkipFire
    case WaitOnFailure =>
      if GivesUp(job, if job.name in blockedSince then blockedSince[job.name] else now, now) then SkipFire else Hold
  }

  /** The clock rows after catch-up planning: only `on_missed = "skip"` writes one. */
  ghost function MissedClock(job: Job, crons: map<string, Cron>, clock: Clock, now: int): Clock
    requires !job.Triggered() ==> job.name in crons && IsCron(crons[job.name])
  {
    var state := StateOf(clock, job.name);
    if job.Triggered() || state.IsQuarantined() || state.lastFire.None? || job.missed != SkipMissed then clock
    else
      match LastOf(Once(crons[job.name], FiresIn(crons[job.name], state.lastFire.value, now)))
      case None => clock
      case Some(fire) => SetLastFire(clock, job.name, fire)
  }

  /** Which of the missed fires are replayed: Python's `missed[-cap:]` is a suffix for
      a positive cap and drops a prefix for a negative one. */
  method ChooseReplay(missed: seq<int>, policy: MissedPolicy, cap: int) returns (fires: seq<int>)
    requires missed != []
    ensures fires == Replay(missed, policy, cap)
  {
    match policy
    case SkipMissed => fires := [];
    case RunLatest => fires := [missed[|missed| - 1]];
    case RunEach =>
      fires := missed;
      if cap != 0 && |missed| > cap {
        if cap > 0 {
          fires := missed[|missed| - cap..];
        } else {
          fires := missed[if -cap <= |missed| then -cap else |missed|..];
        }
      }
  }

  /** Rows only appear, and the one move among them is the sweep of a retry. */
  ghost predicate OnlySwept(was: Runs, runs: Runs) {
    forall k :: k in was ==> k in runs && (runs[k] == was[k] || (was[k].state == Retrying && runs[k].state == Claimed))
  }

  /** No row of `was` is gone or changed. */
  predicate Kept(was: Runs, runs: Runs) {
    forall k :: k in was ==> k in runs && runs[k] == was[k]
  }

  lemma KeptOn(a: Runs, b: Runs, c: Runs)
    requires Kept(a, b) && Kept(b, c)
    ensures Kept(a, c)
  {
  }

  lemma RespondOnlyInserts(r: Reaction, job: Job, fire: int, v: TriggerView, inflight: int, now: int)
    ensures Kept(v.runs, Respond(r, job, fire, v, inflight, now).runs)
  {
  }

  lemma TriggerOnlyInserts(job: Job, v: TriggerView, inflight: int, now: int)
    ensures Kept(v.runs, TriggerStep(job, v, inflight, now).runs)
  {
    if !Held(job, StateOf(v.clock, job.name), inflight, now) {
      var w := v.(clock := AfterBreaker(v.clock, job.name, now));
      match GateOf(v.runs, StateOf(v.clock, job.name).lastFire, job.after)
      case Wait =>
      case Go(fire) => RespondOnlyInserts(RunAnyway, job, fire, w, inflight, now);
      case Blocked(_, fire) =>
        RespondOnlyInserts(React(job, w.blockedSince, now), job, fire, Remembered(job, w, now), inflight, now);
    }
  }

  lemma TriggerAllNext(jobs: seq<Job>, n: nat, v: TriggerView, inflight: map<string, int>, nows: nat -> int)
    requires 0 < n <= |jobs|
    ensures Kept(TriggerAll(jobs, n - 1, v, inflight, nows).runs, TriggerAll(jobs, n, v, inflight, nows).runs)
  {
    var job := jobs[n - 1];
    TriggerOnlyInserts(job, TriggerAll(jobs, n - 1, v, inflight, nows), InflightOf(inflight, job.name), nows(n - 1));
  }

  lemma TriggersKeepOn(jobs: seq<Job>, n: nat, v: TriggerView, inflight: map<string, int>, nows: nat -> int)
    requires 0 < n <= |jobs| && Kept(v.runs, TriggerAll(jobs, n - 1, v, inflight, nows).runs)
    ensures Kept(v.runs, TriggerAll(jobs, n, v, inflight, nows).runs)
  {
    TriggerAllNext(jobs, n, v, inflight, nows);
    KeptOn(v.runs, TriggerAll(jobs, n - 1, v, inflight, nows).runs, TriggerAll(jobs, n, v, inflight, nows).runs);
  }

  lemma {:induction false} TriggersOnlyInsert(jobs: seq<Job>, n: nat, v: TriggerView, inflight: map<string, int>, nows: nat -> int)
    requires n <= |jobs|
    ensures Kept(v.runs, TriggerAll(jobs, n, v, inflight, nows).runs)
  {
    if n > 0 {
      TriggersOnlyInsert(jobs, n - 1, v, inflight, nows);
      TriggersKeepOn(jobs, n, v, inflight, nows);
    }
  }

  lemma DueStepIsLocal(job: Job, crons: map<string, Cron>, v: DueView, inflight: int, now: int, other: string)
    requires job.name in v.since && (!job.Triggered() ==> job.name in crons && IsCron(crons[job.name]))
    ensures var w := DueStep(job, crons, v, inflight, now);
      && Kept(v.runs, w.runs) && w.since[job.name] == CursorAfter(job, crons, v.since, now)
      && (other != job.name ==>
            && StateOf(w.clock, other) == StateOf(v.clock, other)
            && (other in w.since <==> other in v.since) && (other in v.since ==> w.since[other] == v.since[other]))
  {
  }

  lemma {:induction false} DueKeeps(jobs: seq<Job>, n: nat, crons: map<string, Cron>, v: DueView, inflight: map<string, int>, now: int)
    requires n <= |jobs| && Scheduled(jobs, crons, v.since)
    ensures Kept(v.runs, DueAll(jobs, n, crons, v, inflight, now).runs)
  {
    if n > 0 {
      DueKeeps(jobs, n - 1, crons, v, inflight, now);
      var job, w := jobs[n - 1], DueAll(jobs, n - 1, crons, v, inflight, now);
      DueStepIsLocal(job, crons, w, InflightOf(inflight, job.name), now, "");
      KeptOn(v.runs, w.runs, DueAll(jobs, n, crons, v, inflight, now).runs);
    }
  }

  /** Until its turn a job's clock row and cursor are as they were; its turn leaves the
      cursor at its newest due fire. */
  lemma {:induction false} DueCursors(jobs: seq<Job>, n: nat, crons: map<string, Cron>, v: DueView, inflight: map<string, int>, now: int, i: nat)
    requires n <= |jobs| && Scheduled(jobs, crons, v.since) && i < |jobs|
    requires forall m, k :: 0 <= m < k < |jobs| ==> jobs[m].name != jobs[k].name
    ensures var w := DueAll(jobs, n, crons, v, inflight, now);
      && (i >= n ==> StateOf(w.clock, jobs[i].name) == StateOf(v.clock, jobs[i].name) && w.since[jobs[i].name] == v.since[jobs[i].name])
      && (i < n ==> w.since[jobs[i].name] == CursorAfter(jobs[i], crons, v.since, now))
  {
    if n > 0 {
      DueCursors(jobs, n - 1, crons, v, inflight, now, i);
      var job, w := jobs[n - 1], DueAll(jobs, n - 1, crons, v, inflight, now);
      DueStepIsLocal(job, crons, w, InflightOf(inflight, job.name), now, jobs[i].name);
    }
  }

  lemma DueStepRows(job: Job, crons: map<string, Cron>, v: DueView, inflight: int, now: int)
    requires job.name in v.since && (!job.Triggered() ==> job.name in crons && IsCron(crons[job.name]))
    ensures DueStep(job, crons, v, inflight, now).runs ==
      var due := if ByClockNow(job) then LastOf(FiresIn(crons[job.name], v.since[job.name], now)) else None;
      if due.Some? && Passes(job, StateOf(v.clock, job.name), inflight, now)
      then InsertIfAbsent(v.runs, Key(job.name, due.value, 1), CLAIMED_ROW) else v.runs
  {
  }

  lemma DueClaimsNext(jobs: seq<Job>, n: nat, crons: map<string, Cron>, since: map<string, int>, passing: set<string>, now: int, runs: Runs)
    requires 0 < n <= |jobs| && Scheduled(jobs, crons, since)
    ensures AddClaims(runs, DueClaims(jobs, n, crons, since, passing, now)) ==
      var job := jobs[n - 1];
      var before := AddClaims(runs, DueClaims(jobs, n - 1, crons, since, passing, now));
      var due := if ByClockNow(job) then LastOf(FiresIn(crons[job.name], since[job.name], now)) else None;
      if due.Some? && job.name in passing then InsertIfAbsent(before, Key(job.name, due.value, 1), CLAIMED_ROW) else before
  {
    var job := jobs[n - 1];
    if ByClockNow(job) {
      match LastOf(FiresIn(crons[job.name], since[job.name], now))
      case None =>
      case Some(fire) => AddClaimsNext(runs, DueClaims(jobs, n - 1, crons, since, passing, now), Key(job.name, fire, 1));
    }
  }

  lemma DueRowsStep(jobs: seq<Job>, n: nat, crons: map<string, Cron>, v: DueView, w: DueView, inflight: int, now: int, passing: set<string>)
    requires 0 < n <= |jobs| && Scheduled(jobs, crons, v.since) && jobs[n - 1].name in w.since
    requires w.runs == AddClaims(v.runs, DueClaims(jobs, n - 1, crons, v.since, passing, now))
    requires var job := jobs[n - 1];
      && StateOf(w.clock, job.name) == StateOf(v.clock, job.name) && w.since[job.name] == v.since[job.name]
      && (job.name in passing <==> Passes(job, StateOf(v.clock, job.name), inflight, now))
    ensures DueStep(jobs[n - 1], crons, w, inflight, now).runs
         == AddClaims(v.runs, DueClaims(jobs, n, crons, v.since, passing, now))
  {
    DueStepRows(jobs[n - 1], crons, w, inflight, now);
    DueClaimsNext(jobs, n, crons, v.since, passing, now, v.runs);
  }

  /** A tick claims exactly the newest due fire of every enabled clock-driven job that
      passes the breaker and has a free slot, as things stood before the loop. */
  lemma {:induction false} DueRows(jobs: seq<Job>, n: nat, crons: map<string, Cron>, v: DueView,
                             inflight: map<string, int>, now: int, passing: set<string>)
    requires n <= |jobs| && Scheduled(jobs, crons, v.since)
    requires forall m, k :: 0 <= m < k < |jobs| ==> jobs[m].name != jobs[k].name
    requires forall i :: 0 <= i < |jobs| ==>
      (jobs[i].name in passing <==> Passes(jobs[i], StateOf(v.clock, jobs[i].name), InflightOf(inflight, jobs[i].name), now))
    ensures DueAll(jobs, n, crons, v, inflight, now).runs == AddClaims(v.runs, DueClaims(jobs, n, crons, v.since, passing, now))
  {
    if n == 0 {
      AddClaimsNext(v.runs, {}, Key("", 0, 1));
    } else {
      DueRows(jobs, n - 1, crons, v, inflight, now, passing);
      DueCursors(jobs, n - 1, crons, v, inflight, now, n - 1);
      DueRowsStep(jobs, n, crons, v, DueAll(jobs, n - 1, crons, v, inflight, now),
                  InflightOf(inflight, jobs[n - 1].name), now, passing);
    }
  }

  // --- one tick ----------------------------------------------------------------

  /** The keys that the queued manual triggers claim, each at its own reading of the clock. */
  ghost function AdhocKeys(cfg: Config, queued: seq<string>, nows: nat -> int): set<Key> {
    set i | 0 <= i < |queued| && queued[i] in cfg :: Key(queued[i], nows(i), 1)
  }

  lemma AdhocKeysNext(cfg: Config, queued: seq<string>, name: string, nows: nat -> int)
    ensures AdhocKeys(cfg, queued + [name], nows)
         == AdhocKeys(cfg, queued, nows) + if name in cfg then {Key(name, nows(|queued|), 1)} else {}
  {
    var all := queued + [name];
    forall k | k in AdhocKeys(cfg, queued, nows)
      ensures k in AdhocKeys(cfg, all, nows)
    {
      var i :| 0 <= i < |queued| && queued[i] in cfg && k == Key(queued[i], nows(i), 1);
      assert all[i] == queued[i];
    }
    assert all[|queued|] == name;
    assert forall i :: 0 <= i < |queued| ==> all[i] == queued[i];
  }

  /** The clock is read anew for each part of a tick, and in the first and the last for
      each queued name and each job. */
  datatype Clocks = Clocks(adhoc: nat -> int, due: int, sweep: int, trigger: nat -> int)

  /** The first half of a tick: manual triggers, then due fires. */
  ghost function TickDue(jobs: seq<Job>, cfg: Config, crons: map<string, Cron>, adhoc: seq<string>, v: DueView,
                         inflight: map<string, int>, t: Clocks): DueView
    requires Scheduled(jobs, crons, v.since)
  {
    DueAll(jobs, |jobs|, crons, v.(runs := AddClaims(v.runs, AdhocKeys(cfg, adhoc, t.adhoc))), inflight, t.due)
  }

  /** The second half: due retries, then triggered jobs. */
  ghost function TickTriggers(jobs: seq<Job>, cfg: Config, d: DueView, blockedSince: map<string, int>,
                              inflight: map<string, int>, t: Clocks): TriggerView
  {
    var rows := SweepRows(d.runs, Launchable(cfg, d.runs, d.clock, inflight, t.sweep));
    TriggerAll(jobs, |jobs|, TriggerView(rows, d.clock, blockedSince), inflight, t.trigger)
  }

  /** A whole tick leaves every row it finds alone, except retries it sweeps. */
  lemma TickOnlySweeps(jobs: seq<Job>, cfg: Config, crons: map<string, Cron>, adhoc: seq<string>, v: DueView,
                       blockedSince: map<string, int>, inflight: map<string, int>, t: Clocks)
    requires Scheduled(jobs, crons, v.since)
    ensures OnlySwept(v.runs, TickTriggers(jobs, cfg, TickDue(jobs, cfg, crons, adhoc, v, inflight, t), blockedSince, inflight, t).runs)
  {
    var claimed := v.(runs := AddClaims(v.runs, AdhocKeys(cfg, adhoc, t.adhoc)));
    var d := TickDue(jobs, cfg, crons, adhoc, v, inflight, t);
    DueKeeps(jobs, |jobs|, crons, claimed, inflight, t.due);
    KeptOn(v.runs, claimed.runs, d.runs);
    var rows := SweepRows(d.runs, Launchable(cfg, d.runs, d.clock, inflight, t.sweep));
    TriggersOnlyInsert(jobs, |jobs|, TriggerView(rows, d.clock, blockedSince), inflight, t.trigger);
    SweptOn(v.runs, d.runs, rows, TickTriggers(jobs, cfg, d, blockedSince, inflight, t).runs);
  }

  lemma SweptOn(a: Runs, b: Runs, c: Runs, d: Runs)
    requires Kept(a, b) && OnlySwept(b, c) && Kept(c, d)
    ensures OnlySwept(a, d)
  {
  }
}
