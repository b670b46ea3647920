/** What the blocks of Rules come to in the columns of the tables, written out on the
    fields: which outcome is recorded, what is retried and when, how the clock row of a
    job moves, and when its breaker lets a fire through. */
module Effects {
  import opened Models
  import opened Tables
  import opened Gate
  import opened Schedule
  import opened Lifecycle
  import opened Rules

  // --- the wait before a retry ---------------------------------------------------------

  function Power(b: int, n: nat): int {
    if n == 0 then 1 else b * Power(b, n - 1)
  }

  lemma {:induction false} DoubledIsPower(d: int, n: nat)
    ensures Doubled(d, n) == d * Power(2, n)
  {
    if n > 0 {
      DoubledIsPower(d, n - 1);
    }
  }

  predicate Capped(wait: int, full: int, cap: int) {
    wait <= full && wait <= cap && (wait == full || wait == cap)
  }

  /** A wait of the length the policy asks for after attempt number `attempt`. */
  predicate WaitIs(policy: RetryPolicy, attempt: int, wait: int)
    requires attempt >= 1
  {
    match policy.backoff
    case Fixed => Capped(wait, policy.baseDelay, policy.maxDelay)
    case Linear => Capped(wait, policy.baseDelay * attempt, policy.maxDelay)
    case Exponential => Capped(wait, policy.baseDelay * Power(2, attempt - 1), policy.maxDelay)
  }

  lemma DelayMeans(policy: RetryPolicy, attempt: int)
    requires attempt >= 1
    ensures WaitIs(policy, attempt, policy.DelayForAttempt(attempt))
  {
    DoubledIsPower(policy.baseDelay, attempt - 1);
  }

  // --- the end of a run ------------------------------------------------------------------

  /** The outcome a wrapper's exit file stands for; killed while unsupervised is a timeout. */
  predicate ReadFrom(file: Sentinel, outcome: RunState) {
    && (outcome == Succeeded <==> file.exitCode == 0)
    && (outcome == TimedOut <==> file.exitCode != 0 && file.signaled)
    && (outcome == Failed <==> file.exitCode != 0 && !file.signaled)
  }

  /** A waiting retry, due as long after `now` as the policy says. */
  predicate IsRetry(row: Row, policy: RetryPolicy, attempt: int, now: int)
    requires attempt >= 1
  {
    row.state == Retrying && row.finishedAt.None? && row.pid.None? && row.notBefore.Some?
    && WaitIs(policy, attempt, row.notBefore.value - now)
  }

  /** The row is finished; no other row changed, and none but its successor is new. */
  ghost predicate OnlyClosed(was: Runs, runs: Runs, key: Key, now: int) {
    && key in was && key in runs && runs[key] == was[key].(state := runs[key].state, finishedAt := Some(now))
    && (forall k :: k in was && k != key ==> k in runs && runs[k] == was[k])
    && (forall k :: k in runs && k !in was ==> k == key.Next())
  }

  /** One more failed fire. A job that is quarantined, or that reaches its threshold, is
      quarantined from `now`. */
  predicate CountsFailed(job: Job, was: JobState, state: JobState, now: int) {
    && state.consecutive == was.consecutive + 1
    && state.quarantinedAt ==
       (if was.quarantinedAt.Some? || (job.quarantineAfter != 0 && was.consecutive + 1 >= job.quarantineAfter)
        then Some(now) else None)
    && state.skipped == was.skipped && state.resumeRequested == was.resumeRequested
  }

  /** No failed fire stands, and a quarantine is over. */
  predicate CountsSucceeded(was: JobState, state: JobState) {
    && state.consecutive == 0 && state.quarantinedAt.None?
    && (was.quarantinedAt.Some? ==> state.skipped == 0 && !state.resumeRequested)
    && (was.quarantinedAt.None? ==> state.skipped == was.skipped && state.resumeRequested == was.resumeRequested)
  }

  /** The clock row of a job once a fire was counted, as a failure or as a success. */
  ghost predicate Counts(was: Clock, clock: Clock, job: Job, failed: bool, now: int) {
    && OthersKept(was, clock, job.name)
    && (failed ==> CountsFailed(job, StateOf(was, job.name), StateOf(clock, job.name), now))
    && (!failed ==> CountsSucceeded(StateOf(was, job.name), StateOf(clock, job.name)))
  }

  lemma HealthMeans(was: Clock, job: Job, outcome: RunState, now: int)
    ensures var clock := Lifecycle.UpdateHealth(was, job, job.name, outcome, now);
      && Counts(was, clock, job, outcome == Failed || outcome == TimedOut || outcome == Lost, now)
      && (job.name in was ==> StateOf(clock, job.name).lastFire == StateOf(was, job.name).lastFire)
  {
  }

  /** The clock row of a job once its last fire was written, and nothing else. */
  ghost predicate FireSet(was: Clock, clock: Clock, job: string, fire: int) {
    && StateOf(clock, job).lastFire == Some(fire) && SameBreaker(StateOf(clock, job), StateOf(was, job))
    && OthersKept(was, clock, job)
  }

  lemma SetLastFireMeans(was: Clock, job: string, fire: int)
    ensures FireSet(was, SetLastFire(was, job, fire), job, fire) && job in SetLastFire(was, job, fire)
  {
  }

  /** A fire the breaker held back: counted, and passed over for good. */
  ghost predicate PassedOver(was: Clock, clock: Clock, job: string, fire: int) {
    var a, b := StateOf(was, job), StateOf(clock, job);
    && b.lastFire == Some(fire) && b.skipped == a.skipped + 1
    && b.consecutive == a.consecutive && b.quarantinedAt == a.quarantinedAt && b.resumeRequested == a.resumeRequested
    && OthersKept(was, clock, job)
  }

  lemma HoldMeans(was: Clock, job: string, fire: int, now: int)
    ensures PassedOver(was, AfterHold(was, job, fire, now), job, fire)
  {
  }

  /** A fire is over: the clock row is at it, and unless it is retried it counts. */
  ghost predicate FireEnded(was: Clock, clock: Clock, job: Job, fire: int, failed: bool, retried: bool, now: int) {
    && StateOf(clock, job.name).lastFire == Some(fire)
    && (retried ==> FireSet(was, clock, job.name, fire))
    && (!retried ==> Counts(was, clock, job, failed, now))
  }

  lemma FireEnds(was: Clock, job: Job, fire: int, outcome: RunState, retried: bool, now: int)
    ensures var moved := SetLastFire(was, job.name, fire);
      var clock := if retried then moved else Lifecycle.UpdateHealth(moved, job, job.name, outcome, now);
      FireEnded(was, clock, job, fire, outcome == Failed || outcome == TimedOut || outcome == Lost, retried, now)
  {
    SetLastFireMeans(was, job.name, fire);
    HealthMeans(SetLastFire(was, job.name, fire), job, outcome, now);
  }

  /** What is left of a fire whose attempt ended with this outcome: the row in that state,
      its retry exactly if the policy has one left, and the clock row. */
  ghost predicate FireOver(was: Runs, runs: Runs, before: Clock, clock: Clock, job: Job, key: Key, outcome: RunState, now: int)
    requires key.attempt >= 1
  {
    var retried := (outcome == Failed || outcome == TimedOut) && key.attempt <= job.retries.max;
    && OnlyClosed(was, runs, key, now) && runs[key].state == outcome
    && (key.Next() in runs <==> retried)
    && (retried ==> IsRetry(runs[key.Next()], job.retries, key.attempt, now))
    && FireEnded(before, clock, job, key.fire, outcome == Failed || outcome == TimedOut || outcome == Lost, retried, now)
  }

  lemma FireIsOver(was: Runs, runs: Runs, before: Clock, clock: Clock, job: Job, key: Key, outcome: RunState, now: int)
    requires key.attempt >= 1 && key in was && key.Next() !in was
    requires var closed := was[key := was[key].(state := outcome, finishedAt := Some(now))];
      var retry := RetryRow(now + job.retries.DelayForAttempt(key.attempt));
      runs == if EarnsRetry(job, key.attempt, outcome) then InsertIfAbsent(closed, key.Next(), retry) else closed
    requires var moved := SetLastFire(before, job.name, key.fire);
      clock == if EarnsRetry(job, key.attempt, outcome) then moved
               else Lifecycle.UpdateHealth(moved, job, job.name, outcome, now)
    ensures FireOver(was, runs, before, clock, job, key, outcome, now)
  {
    DelayMeans(job.retries, key.attempt);
    FireEnds(before, job, key.fire, outcome, EarnsRetry(job, key.attempt, outcome), now);
  }

  /** A lost run: LOST, retried at once exactly if `on_lost` says so or, without one, if the
      job is idempotent; if it is not retried, the fire counts as failed. */
  ghost predicate LostOver(was: Runs, runs: Runs, before: Clock, clock: Clock, job: Job, key: Key, now: int) {
    var retried := job.onLost == Some(LostRetries) || (job.onLost.None? && job.idempotent);
    && OnlyClosed(was, runs, key, now) && runs[key].state == Lost
    && (key.Next() in runs <==> retried)
    && (retried ==> runs[key.Next()] == Row(Retrying, None, Some(now), None) && clock == before)
    && (!retried ==> Counts(before, clock, job, true, now))
  }

  lemma LostIsOver(was: Runs, runs: Runs, before: Clock, clock: Clock, job: Job, key: Key, now: int)
    requires key in was && key.Next() !in was
    requires var closed := was[key := was[key].(state := Lost, finishedAt := Some(now))];
      runs == if job.EffectiveOnLost() == LostRetries then InsertIfAbsent(closed, key.Next(), RetryRow(now)) else closed
    requires clock == if job.EffectiveOnLost() == LostRetries then before else Lifecycle.UpdateHealth(before, job, job.name, Lost, now)
    ensures LostOver(was, runs, before, clock, job, key, now)
  {
    HealthMeans(before, job, Lost, now);
  }

  // --- the breaker ----------------------------------------------------------------------

  /** A quarantined job is held back, unless it was resumed, or is idle with its cooldown
      over. */
  predicate Holds(job: Job, state: JobState, inflight: int, now: int) {
    && state.quarantinedAt.Some? && !state.resumeRequested
    && !(job.quarantineCooldown.Some? && state.quarantinedAt.value + job.quarantineCooldown.value <= now && inflight == 0)
  }

  lemma HeldMeans(job: Job, state: JobState, inflight: int, now: int)
    ensures Held(job, state, inflight, now) <==> Holds(job, state, inflight, now)
  {
  }

  /** A fire was let through: a resume ends the quarantine, and nothing else is written. */
  ghost predicate LetThrough(was: Clock, clock: Clock, job: string) {
    var a, b := StateOf(was, job), StateOf(clock, job);
    if a.quarantinedAt.Some? && a.resumeRequested then
      && b.consecutive == 0 && b.quarantinedAt.None? && b.skipped == 0 && !b.resumeRequested
      && b.lastFire == a.lastFire && OthersKept(was, clock, job)
    else clock == was
  }

  lemma BreakerMeans(clock: Clock, job: string, now: int)
    ensures LetThrough(clock, AfterBreaker(clock, job, now), job)
  {
  }

  // --- clock-driven fires -----------------------------------------------------------------

  /** A first attempt that is claimed, unless its fire has a row. */
  function Claimed1(runs: Runs, job: string, fire: int): Runs {
    if Key(job, fire, 1) in runs then runs else runs[Key(job, fire, 1) := Row(Claimed, None, None, None)]
  }

  /** One clock-driven job in a tick: its newest due fire moves the cursor, and is held back
      and counted, dropped because the job is busy, or claimed. */
  ghost predicate Fires(job: Job, c: Cron, v: DueView, w: DueView, inflight: int, now: int)
    requires job.name in v.since
  {
    var state := StateOf(v.clock, job.name);
    && ((forall f :: !NewestDue(c, v.since[job.name], now, f)) ==> w == v)
    && (forall f :: NewestDue(c, v.since[job.name], now, f) ==>
          && w.since == v.since[job.name := f]
          && (Holds(job, state, inflight, now) ==> w.runs == v.runs && PassedOver(v.clock, w.clock, job.name, f))
          && (!Holds(job, state, inflight, now) ==>
                && LetThrough(v.clock, w.clock, job.name)
                && w.runs == if inflight < job.concurrency then Claimed1(v.runs, job.name, f) else v.runs))
  }

  lemma FireStepMeans(job: Job, fire: int, v: DueView, inflight: int, now: int)
    ensures var state, w := StateOf(v.clock, job.name), FireStep(job, fire, v, inflight, now);
      && w.since == v.since
      && (Holds(job, state, inflight, now) ==> w.runs == v.runs && PassedOver(v.clock, w.clock, job.name, fire))
      && (!Holds(job, state, inflight, now) ==>
            && LetThrough(v.clock, w.clock, job.name)
            && w.runs == if inflight < job.concurrency then Claimed1(v.runs, job.name, fire) else v.runs)
  {
    HeldMeans(job, StateOf(v.clock, job.name), inflight, now);
    HoldMeans(v.clock, job.name, fire, now);
    BreakerMeans(v.clock, job.name, now);
  }

  lemma DueStepMeans(job: Job, crons: map<string, Cron>, v: DueView, inflight: int, now: int)
    requires job.name in v.since && job.name in crons && IsCron(crons[job.name]) && job.enabled && job.after == []
    ensures Fires(job, crons[job.name], v, DueStep(job, crons, v, inflight, now), inflight, now)
  {
    var c, since := crons[job.name], v.since[job.name];
    LastIsNewestDue(c, since, now);
    match LastOf(FiresIn(c, since, now))
    case None =>
    case Some(fire) =>
      assert NewestDue(c, since, now, fire);
      FireStepMeans(job, fire, v.(since := v.since[job.name := fire]), inflight, now);
  }

  /** Is this first attempt claimed by a tick: the newest due fire of an enabled
      clock-driven job that is not held back and has a free slot? */
  ghost predicate IsClaimed(job: Job, crons: map<string, Cron>, v: DueView, inflight: int, now: int, fire: int)
    requires job.name in v.since && (job.after == [] ==> job.name in crons)
  {
    && job.enabled && job.after == [] && NewestDue(crons[job.name], v.since[job.name], now, fire)
    && !Holds(job, StateOf(v.clock, job.name), inflight, now) && inflight < job.concurrency
  }

  ghost predicate ClaimedByTick(jobs: seq<Job>, n: nat, crons: map<string, Cron>, v: DueView, inflight: map<string, int>, now: int, k: Key)
    requires n <= |jobs| && Scheduled(jobs, crons, v.since)
  {
    k.attempt == 1 && exists i :: 0 <= i < n && jobs[i].name == k.job
                                  && IsClaimed(jobs[i], crons, v, InflightOf(inflight, k.job), now, k.fire)
  }

  lemma {:induction false} DueClaimsMean(jobs: seq<Job>, n: nat, crons: map<string, Cron>, v: DueView, inflight: map<string, int>,
                                         passing: set<string>, now: int)
    requires n <= |jobs| && Scheduled(jobs, crons, v.since)
    requires forall i :: 0 <= i < |jobs| ==>
      (jobs[i].name in passing <==> Passes(jobs[i], StateOf(v.clock, jobs[i].name), InflightOf(inflight, jobs[i].name), now))
    ensures forall k :: k in DueClaims(jobs, n, crons, v.since, passing, now) <==> ClaimedByTick(jobs, n, crons, v, inflight, now, k)
  {
    if n > 0 {
      DueClaimsMean(jobs, n - 1, crons, v, inflight, passing, now);
      var job := jobs[n - 1];
      HeldMeans(job, StateOf(v.clock, job.name), InflightOf(inflight, job.name), now);
      if job.after == [] {
        LastIsNewestDue(crons[job.name], v.since[job.name], now);
      }
      forall k
        ensures k in DueClaims(jobs, n, crons, v.since, passing, now) <==> ClaimedByTick(jobs, n, crons, v, inflight, now, k)
      {
        DueClaimsAdd(jobs, n, crons, v, inflight, passing, now, k);
      }
    }
  }

  lemma DueClaimsAdd(jobs: seq<Job>, n: nat, crons: map<string, Cron>, v: DueView, inflight: map<string, int>,
                     passing: set<string>, now: int, k: Key)
    requires 0 < n <= |jobs| && Scheduled(jobs, crons, v.since)
    requires var job := jobs[n - 1];
      && (job.name in passing <==> Passes(job, StateOf(v.clock, job.name), InflightOf(inflight, job.name), now))
      && Held(job, StateOf(v.clock, job.name), InflightOf(inflight, job.name), now)
         == Holds(job, StateOf(v.clock, job.name), InflightOf(inflight, job.name), now)
      && (job.after == [] ==> forall f ::
            LastOf(FiresIn(crons[job.name], v.since[job.name], now)) == Some(f) <==> NewestDue(crons[job.name], v.since[job.name], now, f))
    requires k in DueClaims(jobs, n - 1, crons, v.since, passing, now) <==> ClaimedByTick(jobs, n - 1, crons, v, inflight, now, k)
    ensures k in DueClaims(jobs, n, crons, v.since, passing, now) <==> ClaimedByTick(jobs, n, crons, v, inflight, now, k)
  {
    var job := jobs[n - 1];
    var here := k.attempt == 1 && job.name == k.job && IsClaimed(job, crons, v, InflightOf(inflight, k.job), now, k.fire);
    assert ClaimedByTick(jobs, n, crons, v, inflight, now, k)
      <==> ClaimedByTick(jobs, n - 1, crons, v, inflight, now, k) || here;
    assert here ==> k == Key(job.name, k.fire, 1);
  }

  /** The rows after the clock-driven jobs had their turn: those that were there, and the
      newest due fire of every job that may run it. */
  lemma DueOnRows(jobs: seq<Job>, crons: map<string, Cron>, v: DueView, inflight: map<string, int>, now: int)
    requires Scheduled(jobs, crons, v.since)
    requires forall m, n :: 0 <= m < n < |jobs| ==> jobs[m].name != jobs[n].name
    ensures var rows := DueAll(jobs, |jobs|, crons, v, inflight, now).runs;
      && (forall k :: k in v.runs ==> k in rows && rows[k] == v.runs[k])
      && (forall k :: k !in v.runs ==> (k in rows <==> ClaimedByTick(jobs, |jobs|, crons, v, inflight, now, k)))
      && (forall k :: k in rows && k !in v.runs ==> rows[k] == Row(Claimed, None, None, None))
  {
    var passing := set i | 0 <= i < |jobs|
      && Passes(jobs[i], StateOf(v.clock, jobs[i].name), InflightOf(inflight, jobs[i].name), now) :: jobs[i].name;
    DueRows(jobs, |jobs|, crons, v, inflight, now, passing);
    DueClaimsMean(jobs, |jobs|, crons, v, inflight, passing, now);
  }

  /** A job that is not quarantined keeps its clock row while the due fires are dispatched. */
  lemma {:induction false} HealthyKeepsClock(jobs: seq<Job>, n: nat, crons: map<string, Cron>, v: DueView, inflight: map<string, int>,
                                             now: int, job: string)
    requires n <= |jobs| && Scheduled(jobs, crons, v.since) && StateOf(v.clock, job).quarantinedAt.None?
    ensures StateOf(DueAll(jobs, n, crons, v, inflight, now).clock, job) == StateOf(v.clock, job)
  {
    if n > 0 {
      HealthyKeepsClock(jobs, n - 1, crons, v, inflight, now, job);
      var w := DueAll(jobs, n - 1, crons, v, inflight, now);
      DueStepIsLocal(jobs[n - 1], crons, w, InflightOf(inflight, jobs[n - 1].name), now, job);
    }
  }

  /** The clock row of a job whose newest due fire, if any, was held back or let through. */
  ghost predicate ClockMoves(job: Job, due: Option<int>, was: JobState, state: JobState, inflight: int, now: int) {
    if !job.enabled || job.after != [] || due.None? then state == was
    else if Holds(job, was, inflight, now) then state == was.(lastFire := due, skipped := was.skipped + 1)
    else if was.quarantinedAt.Some? && was.resumeRequested then state == JobState(was.lastFire, 0, None, 0, false)
    else state == was
  }

  lemma DueStepClock(job: Job, crons: map<string, Cron>, v: DueView, inflight: int, now: int)
    requires job.name in v.since && (!job.Triggered() ==> job.name in crons && IsCron(crons[job.name]))
    ensures var due := if job.after == [] then LastOf(FiresIn(crons[job.name], v.since[job.name], now)) else None;
      ClockMoves(job, due, StateOf(v.clock, job.name), StateOf(DueStep(job, crons, v, inflight, now).clock, job.name), inflight, now)
  {
    HeldMeans(job, StateOf(v.clock, job.name), inflight, now);
  }

  /** What the clock-driven jobs' turns leave in each clock row. */
  lemma {:induction false} DueClocks(jobs: seq<Job>, n: nat, crons: map<string, Cron>, v: DueView, inflight: map<string, int>,
                                     now: int, i: nat)
    requires i < n <= |jobs| && Scheduled(jobs, crons, v.since)
    requires forall m, k :: 0 <= m < k < |jobs| ==> jobs[m].name != jobs[k].name
    ensures var job, w := jobs[i], DueAll(jobs, n, crons, v, inflight, now);
      var due := if job.after == [] then LastOf(FiresIn(crons[job.name], v.since[job.name], now)) else None;
      ClockMoves(job, due, StateOf(v.clock, job.name), StateOf(w.clock, job.name), InflightOf(inflight, job.name), now)
  {
    if i < n - 1 {
      DueClocks(jobs, n - 1, crons, v, inflight, now, i);
      TurnIsLocal(jobs, n, crons, v, inflight, now, i);
    } else {
      DueCursors(jobs, i, crons, v, inflight, now, i);
      DueStepClock(jobs[i], crons, DueAll(jobs, i, crons, v, inflight, now), InflightOf(inflight, jobs[i].name), now);
    }
  }

  /** The turn of another job leaves a job's clock row alone. */
  lemma TurnIsLocal(jobs: seq<Job>, n: nat, crons: map<string, Cron>, v: DueView, inflight: map<string, int>, now: int, i: nat)
    requires i < n - 1 < |jobs| && Scheduled(jobs, crons, v.since) && jobs[i].name != jobs[n - 1].name
    ensures StateOf(DueAll(jobs, n, crons, v, inflight, now).clock, jobs[i].name)
         == StateOf(DueAll(jobs, n - 1, crons, v, inflight, now).clock, jobs[i].name)
  {
    var last := jobs[n - 1];
    DueStepIsLocal(last, crons, DueAll(jobs, n - 1, crons, v, inflight, now), InflightOf(inflight, last.name), now, jobs[i].name);
  }

  // --- retries ------------------------------------------------------------------------------

  /** Does a sweep take this row up: a retry whose wait is over, of an enabled job that is
      not quarantined and has a free slot? */
  predicate IsSwept(cfg: Config, k: Key, row: Row, state: JobState, inflight: int, now: int) {
    && row.state == Retrying && row.notBefore.Some? && row.notBefore.value <= now
    && k.job in cfg && cfg[k.job].enabled && state.quarantinedAt.None? && inflight < cfg[k.job].concurrency
  }

  /** The rows after a sweep: those it takes up are CLAIMED and wait no longer, all others
      are as they were. */
  ghost predicate OnlyTakenUp(cfg: Config, was: Runs, runs: Runs, clock: Clock, inflight: map<string, int>, now: int) {
    && runs.Keys == was.Keys
    && forall k :: k in was ==>
         runs[k] == if IsSwept(cfg, k, was[k], StateOf(clock, k.job), InflightOf(inflight, k.job), now)
                    then Row(Claimed, was[k].finishedAt, None, was[k].pid) else was[k]
  }

  lemma SweepMeans(cfg: Config, was: Runs, clock: Clock, inflight: map<string, int>, now: int)
    ensures OnlyTakenUp(cfg, was, SweepRows(was, Launchable(cfg, was, clock, inflight, now)), clock, inflight, now)
    ensures forall k :: k in Launchable(cfg, was, clock, inflight, now) <==>
              k in was && IsSwept(cfg, k, was[k], StateOf(clock, k.job), InflightOf(inflight, k.job), now)
  {
  }

  // --- triggered jobs ---------------------------------------------------------------------------

  /** The fire is claimed if the job has a free slot and the fire no row; a claim that wins
      ends the wait. */
  ghost predicate ClaimedAt(v: TriggerView, w: TriggerView, job: Job, fire: int, inflight: int) {
    && w.runs == (if inflight < job.concurrency then Claimed1(v.runs, job.name, fire) else v.runs)
    && w.blockedSince == (if w.runs != v.runs then v.blockedSince - {job.name} else v.blockedSince)
    && w.clock == v.clock
  }

  /** The fire is SKIPPED, unless it has a row, and the clock row moves on to it. */
  ghost predicate SkippedAt(v: TriggerView, w: TriggerView, job: Job, fire: int, now: int) {
    && w.runs == (if Key(job.name, fire, 1) in v.runs then v.runs
                  else v.runs[Key(job.name, fire, 1) := Row(Skipped, Some(now), None, None)])
    && FireSet(v.clock, w.clock, job.name, fire) && w.blockedSince == v.blockedSince - {job.name}
  }

  /** The reaction to a failed upstream: run anyway, skip, or wait and remember since when,
      and skip once the wait is as long as its limit. */
  ghost predicate ReactsTo(job: Job, fire: int, v: TriggerView, w: TriggerView, inflight: int, now: int) {
    match job.onUpstreamFailure
    case RunOnFailure => ClaimedAt(v, w, job, fire, inflight)
    case SkipOnFailure => SkippedAt(v, w, job, fire, now)
    case WaitOnFailure =>
      var since := if job.name in v.blockedSince then v.blockedSince[job.name] else now;
      if job.waitTimeout.Some? && since + job.waitTimeout.value <= now then SkippedAt(v, w, job, fire, now)
      else w == v.(blockedSince := v.blockedSince[job.name := since])
  }

  lemma ClaimStepMeans(job: Job, fire: int, v: TriggerView, inflight: int)
    ensures ClaimedAt(v, ClaimStep(job, fire, v, inflight), job, fire, inflight)
  {
    assert Key(job.name, fire, 1) !in v.runs ==> Claimed1(v.runs, job.name, fire) != v.runs;
  }

  lemma PassOverMeans(job: Job, fire: int, v: TriggerView, now: int)
    ensures SkippedAt(v, PassOver(job, fire, v, now), job, fire, now)
  {
    SetLastFireMeans(v.clock, job.name, fire);
  }

  lemma BlockedStepMeans(job: Job, fire: int, v: TriggerView, inflight: int, now: int)
    ensures ReactsTo(job, fire, v, BlockedStep(job, fire, v, inflight, now), inflight, now)
  {
    ClaimStepMeans(job, fire, v, inflight);
    PassOverMeans(job, fire, v, now);
    PassOverMeans(job, fire, Remembered(job, v, now), now);
    assert Remembered(job, v, now).blockedSince - {job.name} == v.blockedSince - {job.name};
  }

  /** Are all upstreams fresh, and is `fire` that of the newest of their fresh successes? */
  ghost predicate IsReady(runs: Runs, last: Option<int>, ups: seq<string>, fire: int) {
    && ups != [] && (forall up :: up in ups ==> HasFresh(runs, last, up))
    && (exists k: Key :: k.job in ups && FreshRow(runs, last, k.job, k) && k.fire == fire)
    && (forall k: Key :: k.job in ups && FreshRow(runs, last, k.job, k) ==> k.fire <= fire)
  }

  ghost predicate Waits(runs: Runs, last: Option<int>, ups: seq<string>) {
    && (forall fire :: !IsReady(runs, last, ups, fire))
    && (forall up :: up in ups ==> !HasFailed(runs, last, up))
  }

  /** One triggered job in a tick: held back by the breaker; claimed for the newest upstream
      success when all upstreams have a fresh one; reacting to the last upstream in the list
      that failed; or waiting. */
  ghost predicate Triggers(job: Job, v: TriggerView, w: TriggerView, inflight: int, now: int) {
    var state := StateOf(v.clock, job.name);
    if Holds(job, state, inflight, now) then w == v
    else exists u: TriggerView ::
      && LetThrough(v.clock, u.clock, job.name) && u == v.(clock := u.clock)
      && (forall fire :: IsReady(v.runs, state.lastFire, job.after, fire) ==> ClaimedAt(u, w, job, fire, inflight))
      && (forall k: Key :: BlocksOn(v.runs, state.lastFire, job.after, k.job) && FailedRow(v.runs, state.lastFire, k.job, k) ==>
            ReactsTo(job, k.fire, u, w, inflight, now))
      && (Waits(v.runs, state.lastFire, job.after) ==> w == u)
  }

  lemma ReadyIsGo(runs: Runs, last: Option<int>, ups: seq<string>, fire: int)
    ensures IsReady(runs, last, ups, fire) <==> GateOf(runs, last, ups) == Go(fire)
  {
    GateOnRows(runs, last, ups);
  }

  lemma BlockedByRow(runs: Runs, last: Option<int>, ups: seq<string>, k: Key)
    requires BlocksOn(runs, last, ups, k.job) && FailedRow(runs, last, k.job, k)
    ensures GateOf(runs, last, ups) == Blocked(k.job, k.fire)
  {
    GateOnRows(runs, last, ups);
    var d := GateOf(runs, last, ups);
    var i :| 0 <= i < |ups| && ups[i] == k.job && HasFailed(runs, last, ups[i])
             && forall j :: i < j < |ups| ==> !HasFailed(runs, last, ups[j]);
    assert ups[i] in ups;
    assert d.Blocked?;
    var m :| 0 <= m < |ups| && ups[m] == d.upstream && HasFailed(runs, last, ups[m])
             && forall j :: m < j < |ups| ==> !HasFailed(runs, last, ups[j]);
    assert m == i;
    var l :| FailedRow(runs, last, d.upstream, l) && l.fire == d.fire;
    assert l == k;
  }

  lemma TriggerStepMeans(job: Job, v: TriggerView, inflight: int, now: int)
    ensures Triggers(job, v, TriggerStep(job, v, inflight, now), inflight, now)
  {
    var state := StateOf(v.clock, job.name);
    HeldMeans(job, state, inflight, now);
    if !Held(job, state, inflight, now) {
      var u := v.(clock := AfterBreaker(v.clock, job.name, now));
      BreakerMeans(v.clock, job.name, now);
      var w := TriggerStep(job, v, inflight, now);
      var d := GateOf(v.runs, state.lastFire, job.after);
      GateOnRows(v.runs, state.lastFire, job.after);
      forall fire
        ensures IsReady(v.runs, state.lastFire, job.after, fire) <==> d == Go(fire)
      {
        ReadyIsGo(v.runs, state.lastFire, job.after, fire);
      }
      if d.Go? {
        ClaimStepMeans(job, d.fire, u, inflight);
      }
      forall k: Key | BlocksOn(v.runs, state.lastFire, job.after, k.job) && FailedRow(v.runs, state.lastFire, k.job, k)
        ensures ReactsTo(job, k.fire, u, w, inflight, now)
      {
        BlockedByRow(v.runs, state.lastFire, job.after, k);
        BlockedStepMeans(job, k.fire, u, inflight, now);
      }
    }
  }

  // --- a whole tick ---------------------------------------------------------------------------------

  /** The two tables have the same successes. */
  ghost predicate SameSuccesses(was: Runs, runs: Runs) {
    forall k :: (k in was && was[k].state == Succeeded) <==> (k in runs && runs[k].state == Succeeded)
  }

  lemma ReadyOnSuccesses(was: Runs, runs: Runs, last: Option<int>, ups: seq<string>, fire: int)
    requires SameSuccesses(was, runs) && IsReady(was, last, ups, fire)
    ensures IsReady(runs, last, ups, fire)
  {
    assert forall k: Key :: FreshRow(was, last, k.job, k) <==> FreshRow(runs, last, k.job, k);
    forall up | up in ups
      ensures HasFresh(runs, last, up)
    {
      var k :| FreshRow(was, last, up, k);
      assert FreshRow(runs, last, up, k);
    }
    var k: Key :| k.job in ups && FreshRow(was, last, k.job, k) && k.fire == fire;
    assert FreshRow(runs, last, k.job, k);
  }

  lemma RespondIsLocal(r: Reaction, job: Job, fire: int, v: TriggerView, inflight: int, now: int, other: string)
    ensures var w := Respond(r, job, fire, v, inflight, now);
      && SameSuccesses(v.runs, w.runs)
      && (other != job.name ==> StateOf(w.clock, other) == StateOf(v.clock, other))
  {
  }

  lemma TriggerStepIsLocal(job: Job, v: TriggerView, inflight: int, now: int, other: string)
    ensures var w := TriggerStep(job, v, inflight, now);
      && SameSuccesses(v.runs, w.runs)
      && (other != job.name ==> StateOf(w.clock, other) == StateOf(v.clock, other))
  {
    if !Held(job, StateOf(v.clock, job.name), inflight, now) {
      var w := v.(clock := AfterBreaker(v.clock, job.name, now));
      match GateOf(v.runs, StateOf(v.clock, job.name).lastFire, job.after)
      case Wait =>
      case Go(fire) => RespondIsLocal(RunAnyway, job, fire, w, inflight, now, other);
      case Blocked(_, fire) =>
        RespondIsLocal(React(job, w.blockedSince, now), job, fire, Remembered(job, w, now), inflight, now, other);
    }
  }

  /** The turns of other jobs leave a job's clock row as it was, and add no success. */
  ghost predicate Untouched(v: TriggerView, w: TriggerView, other: string) {
    SameSuccesses(v.runs, w.runs) && StateOf(w.clock, other) == StateOf(v.clock, other)
  }

  ghost predicate NoneNamed(jobs: seq<Job>, n: nat, name: string)
    requires n <= |jobs|
  {
    forall m :: 0 <= m < n ==> jobs[m].name != name
  }

  lemma FewerNamed(jobs: seq<Job>, n: nat, name: string)
    requires 0 < n <= |jobs| && NoneNamed(jobs, n, name)
    ensures NoneNamed(jobs, n - 1, name) && jobs[n - 1].name != name
  {
  }

  lemma {:induction false} TriggersBefore(jobs: seq<Job>, n: nat, v: TriggerView, inflight: map<string, int>, nows: nat -> int, other: string)
    requires n <= |jobs| && NoneNamed(jobs, n, other)
    ensures Untouched(v, TriggerAll(jobs, n, v, inflight, nows), other)
  {
    if n == 0 {
      UntouchedFirst(jobs, v, inflight, nows, other);
    } else {
      FewerNamed(jobs, n, other);
      TriggersBefore(jobs, n - 1, v, inflight, nows, other);
      UntouchedNext(jobs, n, v, inflight, nows, other);
    }
  }

  lemma UntouchedFirst(jobs: seq<Job>, v: TriggerView, inflight: map<string, int>, nows: nat -> int, other: string)
    ensures Untouched(v, TriggerAll(jobs, 0, v, inflight, nows), other)
  {
  }

  lemma UntouchedNext(jobs: seq<Job>, n: nat, v: TriggerView, inflight: map<string, int>, nows: nat -> int, other: string)
    requires 0 < n <= |jobs| && jobs[n - 1].name != other && Untouched(v, TriggerAll(jobs, n - 1, v, inflight, nows), other)
    ensures Untouched(v, TriggerAll(jobs, n, v, inflight, nows), other)
  {
    TriggerTurnIsLocal(jobs, n, v, inflight, nows, other);
    UntouchedOn(v, TriggerAll(jobs, n - 1, v, inflight, nows), TriggerAll(jobs, n, v, inflight, nows), other);
  }

  lemma TriggerTurnIsLocal(jobs: seq<Job>, n: nat, v: TriggerView, inflight: map<string, int>, nows: nat -> int, other: string)
    requires 0 < n <= |jobs| && jobs[n - 1].name != other
    ensures Untouched(TriggerAll(jobs, n - 1, v, inflight, nows), TriggerAll(jobs, n, v, inflight, nows), other)
  {
    var job := jobs[n - 1];
    TriggerStepIsLocal(job, TriggerAll(jobs, n - 1, v, inflight, nows), InflightOf(inflight, job.name), nows(n - 1), other);
  }

  lemma UntouchedOn(a: TriggerView, b: TriggerView, c: TriggerView, other: string)
    requires Untouched(a, b, other) && Untouched(b, c, other)
    ensures Untouched(a, c, other)
  {
  }

  /** Is this fire of a triggered job due: all upstreams fresh, the job enabled, healthy and
      with a free slot? */
  ghost predicate IsTriggered(job: Job, runs: Runs, state: JobState, inflight: int, fire: int) {
    && job.enabled && state.quarantinedAt.None? && inflight < job.concurrency
    && IsReady(runs, state.lastFire, job.after, fire)
  }

  lemma ReadyIsClaimed(job: Job, v: TriggerView, inflight: int, now: int, fire: int)
    requires IsTriggered(job, v.runs, StateOf(v.clock, job.name), inflight, fire)
    ensures Key(job.name, fire, 1) in TriggerStep(job, v, inflight, now).runs
  {
    TriggerStepMeans(job, v, inflight, now);
  }

  lemma {:induction false} TriggeredIsClaimed(jobs: seq<Job>, n: nat, v: TriggerView, inflight: map<string, int>, nows: nat -> int,
                                              i: nat, fire: int)
    requires i < n <= |jobs| && forall m :: 0 <= m < i ==> jobs[m].name != jobs[i].name
    requires IsTriggered(jobs[i], v.runs, StateOf(v.clock, jobs[i].name), InflightOf(inflight, jobs[i].name), fire)
    ensures Key(jobs[i].name, fire, 1) in TriggerAll(jobs, n, v, inflight, nows).runs
  {
    if i < n - 1 {
      TriggeredIsClaimed(jobs, n - 1, v, inflight, nows, i, fire);
      RowStays(jobs, n, v, inflight, nows, Key(jobs[i].name, fire, 1));
    } else {
      TriggeredInTurn(jobs, i, v, inflight, nows, fire);
    }
  }

  lemma RowStays(jobs: seq<Job>, n: nat, v: TriggerView, inflight: map<string, int>, nows: nat -> int, k: Key)
    requires 0 < n <= |jobs| && k in TriggerAll(jobs, n - 1, v, inflight, nows).runs
    ensures k in TriggerAll(jobs, n, v, inflight, nows).runs
  {
    TriggerAllNext(jobs, n, v, inflight, nows);
  }

  lemma TriggeredInTurn(jobs: seq<Job>, i: nat, v: TriggerView, inflight: map<string, int>, nows: nat -> int, fire: int)
    requires i < |jobs| && forall m :: 0 <= m < i ==> jobs[m].name != jobs[i].name
    requires IsTriggered(jobs[i], v.runs, StateOf(v.clock, jobs[i].name), InflightOf(inflight, jobs[i].name), fire)
    ensures Key(jobs[i].name, fire, 1) in TriggerAll(jobs, i + 1, v, inflight, nows).runs
  {
    var w, job := TriggerAll(jobs, i, v, inflight, nows), jobs[i];
    TriggersBefore(jobs, i, v, inflight, nows, job.name);
    ReadyOnSuccesses(v.runs, w.runs, StateOf(v.clock, job.name).lastFire, job.after, fire);
    ReadyIsClaimed(job, w, InflightOf(inflight, job.name), nows(i), fire);
  }

  ghost predicate TriggeredByTick(jobs: seq<Job>, v: DueView, inflight: map<string, int>, k: Key) {
    k.attempt == 1 && exists i :: 0 <= i < |jobs| && jobs[i].name == k.job
                                  && IsTriggered(jobs[i], v.runs, StateOf(v.clock, k.job), InflightOf(inflight, k.job), k.fire)
  }

  /** What a tick owes: a row for every manual trigger of a known job, for the newest due
      fire of every clock-driven job, and for the ready fire of every triggered job that
      may run; every due retry CLAIMED; and no other row that was there changed. */
  ghost predicate Serves(jobs: seq<Job>, cfg: Config, crons: map<string, Cron>, adhoc: seq<string>, v: DueView,
                         inflight: map<string, int>, t: Clocks, runs: Runs)
    requires Scheduled(jobs, crons, v.since)
  {
    && (forall i :: 0 <= i < |adhoc| && adhoc[i] in cfg ==> Key(adhoc[i], t.adhoc(i), 1) in runs)
    && (forall k :: ClaimedByTick(jobs, |jobs|, crons, v, inflight, t.due, k) ==> k in runs)
    && (forall k :: TriggeredByTick(jobs, v, inflight, k) ==> k in runs)
    && DueAreSwept(cfg, v.runs, runs, v.clock, inflight, t.sweep)
  }

  /** A row that changed was a due retry, and every due retry of a healthy job did. */
  ghost predicate DueAreSwept(cfg: Config, was: Runs, runs: Runs, clock: Clock, inflight: map<string, int>, now: int) {
    forall k :: k in was ==>
      && k in runs
      && (IsSwept(cfg, k, was[k], StateOf(clock, k.job), InflightOf(inflight, k.job), now) ==>
            runs[k] == Row(Claimed, was[k].finishedAt, None, was[k].pid))
      && (runs[k] != was[k] ==> was[k].state == Retrying && was[k].notBefore.Some? && was[k].notBefore.value <= now)
  }

  /** Rows that only appear before and after a sweep leave it what it is. */
  lemma SweptWithin(cfg: Config, was: Runs, mid: Runs, swept: Runs, runs: Runs, before: Clock, clock: Clock,
                    inflight: map<string, int>, now: int)
    requires Kept(was, mid) && OnlyTakenUp(cfg, mid, swept, clock, inflight, now) && Kept(swept, runs)
    requires forall j :: StateOf(before, j).quarantinedAt.None? ==> StateOf(clock, j) == StateOf(before, j)
    ensures DueAreSwept(cfg, was, runs, before, inflight, now)
  {
  }

  lemma SweepAddsNoSuccess(cfg: Config, was: Runs, mid: Runs, swept: Runs, clock: Clock, inflight: map<string, int>, now: int)
    requires Kept(was, mid) && OnlyTakenUp(cfg, mid, swept, clock, inflight, now)
    requires forall k :: k in mid && k !in was ==> mid[k] == Row(Claimed, None, None, None)
    ensures SameSuccesses(was, swept)
  {
  }

  /** The first half of a tick, on the rows. */
  lemma TickDueServes(jobs: seq<Job>, cfg: Config, crons: map<string, Cron>, adhoc: seq<string>, v: DueView,
                      inflight: map<string, int>, t: Clocks)
    requires Scheduled(jobs, crons, v.since)
    requires forall m, n :: 0 <= m < n < |jobs| ==> jobs[m].name != jobs[n].name
    ensures var d := TickDue(jobs, cfg, crons, adhoc, v, inflight, t);
      && Kept(v.runs, d.runs) && (forall k :: k in d.runs && k !in v.runs ==> d.runs[k] == Row(Claimed, None, None, None))
      && (forall i :: 0 <= i < |adhoc| && adhoc[i] in cfg ==> Key(adhoc[i], t.adhoc(i), 1) in d.runs)
      && (forall k :: ClaimedByTick(jobs, |jobs|, crons, v, inflight, t.due, k) ==> k in d.runs)
      && (forall j :: StateOf(v.clock, j).quarantinedAt.None? ==> StateOf(d.clock, j) == StateOf(v.clock, j))
  {
    var claimed := v.(runs := AddClaims(v.runs, AdhocKeys(cfg, adhoc, t.adhoc)));
    DueOnRows(jobs, crons, claimed, inflight, t.due);
    forall k | ClaimedByTick(jobs, |jobs|, crons, v, inflight, t.due, k)
      ensures ClaimedByTick(jobs, |jobs|, crons, claimed, inflight, t.due, k)
    {
    }
    forall j | StateOf(v.clock, j).quarantinedAt.None?
      ensures StateOf(TickDue(jobs, cfg, crons, adhoc, v, inflight, t).clock, j) == StateOf(v.clock, j)
    {
      HealthyKeepsClock(jobs, |jobs|, crons, claimed, inflight, t.due, j);
    }
    forall i | 0 <= i < |adhoc| && adhoc[i] in cfg
      ensures Key(adhoc[i], t.adhoc(i), 1) in claimed.runs
    {
      assert Key(adhoc[i], t.adhoc(i), 1) in AdhocKeys(cfg, adhoc, t.adhoc);
    }
  }

  /** The second half: triggered jobs that were ready when the tick began are claimed. */
  lemma TriggersServe(jobs: seq<Job>, v: DueView, swept: TriggerView, inflight: map<string, int>, nows: nat -> int)
    requires forall m, n :: 0 <= m < n < |jobs| ==> jobs[m].name != jobs[n].name
    requires SameSuccesses(v.runs, swept.runs)
    requires forall j :: StateOf(v.clock, j).quarantinedAt.None? ==> StateOf(swept.clock, j) == StateOf(v.clock, j)
    ensures forall k :: TriggeredByTick(jobs, v, inflight, k) ==> k in TriggerAll(jobs, |jobs|, swept, inflight, nows).runs
  {
    forall k | TriggeredByTick(jobs, v, inflight, k)
      ensures k in TriggerAll(jobs, |jobs|, swept, inflight, nows).runs
    {
      var i :| 0 <= i < |jobs| && jobs[i].name == k.job
               && IsTriggered(jobs[i], v.runs, StateOf(v.clock, k.job), InflightOf(inflight, k.job), k.fire);
      ReadyOnSuccesses(v.runs, swept.runs, StateOf(v.clock, k.job).lastFire, jobs[i].after, k.fire);
      TriggeredIsClaimed(jobs, |jobs|, swept, inflight, nows, i, k.fire);
    }
  }

  lemma KeptIsServed(jobs: seq<Job>, cfg: Config, crons: map<string, Cron>, adhoc: seq<string>, v: DueView,
                     inflight: map<string, int>, t: Clocks, mid: Runs, runs: Runs)
    requires Scheduled(jobs, crons, v.since) && forall k :: k in mid ==> k in runs
    requires forall i :: 0 <= i < |adhoc| && adhoc[i] in cfg ==> Key(adhoc[i], t.adhoc(i), 1) in mid
    requires forall k :: ClaimedByTick(jobs, |jobs|, crons, v, inflight, t.due, k) ==> k in mid
    requires forall k :: TriggeredByTick(jobs, v, inflight, k) ==> k in runs
    requires DueAreSwept(cfg, v.runs, runs, v.clock, inflight, t.sweep)
    ensures Serves(jobs, cfg, crons, adhoc, v, inflight, t, runs)
  {
  }

  /** A tick serves what was due when it began. */
  lemma TickServes(jobs: seq<Job>, cfg: Config, crons: map<string, Cron>, adhoc: seq<string>, v: DueView,
                   blockedSince: map<string, int>, inflight: map<string, int>, t: Clocks)
    requires Scheduled(jobs, crons, v.since)
    requires forall m, n :: 0 <= m < n < |jobs| ==> jobs[m].name != jobs[n].name
    ensures var d := TickDue(jobs, cfg, crons, adhoc, v, inflight, t);
      Serves(jobs, cfg, crons, adhoc, v, inflight, t, TickTriggers(jobs, cfg, d, blockedSince, inflight, t).runs)
  {
    var d := TickDue(jobs, cfg, crons, adhoc, v, inflight, t);
    TickDueServes(jobs, cfg, crons, adhoc, v, inflight, t);
    var rows := SweepRows(d.runs, Launchable(cfg, d.runs, d.clock, inflight, t.sweep));
    SweepMeans(cfg, d.runs, d.clock, inflight, t.sweep);
    SweepAddsNoSuccess(cfg, v.runs, d.runs, rows, d.clock, inflight, t.sweep);
    var swept := TriggerView(rows, d.clock, blockedSince);
    TriggersOnlyInsert(jobs, |jobs|, swept, inflight, t.trigger);
    TriggersServe(jobs, v, swept, inflight, t.trigger);
    var runs := TriggerAll(jobs, |jobs|, swept, inflight, t.trigger).runs;
    SweptWithin(cfg, v.runs, d.runs, rows, runs, v.clock, d.clock, inflight, t.sweep);
    KeptIsServed(jobs, cfg, crons, adhoc, v, inflight, t, d.runs, runs);
  }

  // --- catch-up -----------------------------------------------------------------------------------------

  lemma ReplayedWasMissed(missed: seq<int>, policy: MissedPolicy, cap: int)
    ensures forall x :: x in Replay(missed, policy, cap) ==> x in missed
  {
    ReplayIsSuffix(missed, policy, cap);
  }

  /** What catch-up replays was missed: fires of the schedule after the job's last fire. */
  lemma CatchUpMeans(c: Cron, last: int, now: int, policy: MissedPolicy, cap: int)
    requires IsCron(c)
    ensures var missed := Once(c, FiresIn(c, last, now));
      && (forall x :: x in Replay(missed, policy, cap) ==> last < x <= now && IsFire(c, x))
      && (missed == [] <==> forall x :: last < x <= now ==> !IsFire(c, x))
      && (missed != [] ==> last < missed[|missed| - 1] <= now && IsFire(c, missed[|missed| - 1]))
  {
    var fires := FiresIn(c, last, now);
    FiresInMeans(c, last, now);
    OnceMeans(c, fires);
    var missed := Once(c, fires);
    ReplayedWasMissed(missed, policy, cap);
    assert missed != [] ==> missed[|missed| - 1] in missed;
    assert fires != [] ==> fires[0] in fires;
  }

  /** Catch-up with something missed: the cursor is at one of the missed fires. Under
      `on_missed = "skip"` the clock row is too and nothing is replayed; else the clock row
      stays and, unless the cap is negative, the fire at the cursor is the last one replayed. */
  ghost predicate TakesMissed(job: Job, c: Cron, last: int, v: DueView, w: DueView, fires: seq<int>, now: int)
    requires job.name in w.since
  {
    var cursor := w.since[job.name];
    && last < cursor <= now && IsFire(c, cursor)
    && (job.missed == SkipMissed ==> fires == [] && FireSet(v.clock, w.clock, job.name, cursor))
    && (job.missed != SkipMissed ==> w.clock == v.clock)
    && (job.missed == RunLatest ==> fires == [cursor])
    && (job.missed == RunEach && job.catchUpCap >= 0 ==> fires != [] && fires[|fires| - 1] == cursor)
  }

  /** Catch-up on the fields: nothing for a job without a clock, and for one in quarantine or
      without a last fire; else fires of its schedule between its last fire and now. */
  ghost predicate CatchesUp(job: Job, crons: map<string, Cron>, v: DueView, w: DueView, fires: seq<int>, now: int)
    requires job.after == [] ==> job.name in crons
  {
    var state := StateOf(v.clock, job.name);
    && w.runs == v.runs
    && (job.after != [] ==> fires == [] && w == v)
    && (job.after == [] ==> job.name in w.since && w.since == v.since[job.name := w.since[job.name]])
    && (job.after == [] && (state.quarantinedAt.Some? || state.lastFire.None?) ==>
          fires == [] && w.clock == v.clock && w.since[job.name] == now)
    && (job.after == [] && state.quarantinedAt.None? && state.lastFire.Some? ==>
          var c, last := crons[job.name], state.lastFire.value;
          && (forall x :: x in fires ==> last < x <= now && IsFire(c, x))
          && ((exists x :: last < x <= now && IsFire(c, x)) ==> TakesMissed(job, c, last, v, w, fires, now))
          && ((forall x :: last < x <= now ==> !IsFire(c, x)) ==> fires == [] && w.clock == v.clock && w.since[job.name] == last))
  }

  lemma MissedIsTaken(job: Job, c: Cron, last: int, v: DueView, w: DueView, fires: seq<int>, now: int)
    requires IsCron(c) && job.name in w.since && Once(c, FiresIn(c, last, now)) != []
    requires var missed := Once(c, FiresIn(c, last, now));
      && fires == Replay(missed, job.missed, job.catchUpCap) && w.since[job.name] == missed[|missed| - 1]
      && w.clock == if job.missed == SkipMissed then SetLastFire(v.clock, job.name, missed[|missed| - 1]) else v.clock
    ensures TakesMissed(job, c, last, v, w, fires, now)
  {
    var missed := Once(c, FiresIn(c, last, now));
    CatchUpMeans(c, last, now, job.missed, job.catchUpCap);
    SetLastFireMeans(v.clock, job.name, missed[|missed| - 1]);
    LastIsReplayed(missed, job.missed, job.catchUpCap);
  }

  lemma LastIsReplayed(missed: seq<int>, policy: MissedPolicy, cap: int)
    requires missed != []
    ensures var fires := Replay(missed, policy, cap);
      && (policy == SkipMissed ==> fires == [])
      && (policy == RunLatest ==> fires == [missed[|missed| - 1]])
      && (policy == RunEach && cap >= 0 ==> fires != [] && fires[|fires| - 1] == missed[|missed| - 1])
  {
  }

  lemma CatchUpIs(job: Job, crons: map<string, Cron>, v: DueView, w: DueView, fires: seq<int>, now: int)
    requires !job.Triggered() ==> job.name in crons && IsCron(crons[job.name])
    requires w.runs == v.runs && w.clock == MissedClock(job, crons, v.clock, now)
    requires var state := StateOf(v.clock, job.name);
      if job.Triggered() then fires == [] && w.since == v.since
      else if state.IsQuarantined() || state.lastFire.None? then fires == [] && w.since == v.since[job.name := now]
      else
        var missed := Once(crons[job.name], FiresIn(crons[job.name], state.lastFire.value, now));
        && fires == Replay(missed, job.missed, job.catchUpCap)
        && w.since == v.since[job.name := Cursor(missed, state.lastFire.value)]
    ensures CatchesUp(job, crons, v, w, fires, now)
  {
    var state := StateOf(v.clock, job.name);
    if !job.Triggered() && state.quarantinedAt.None? && state.lastFire.Some? {
      CatchUpMeans(crons[job.name], state.lastFire.value, now, job.missed, job.catchUpCap);
      if Once(crons[job.name], FiresIn(crons[job.name], state.lastFire.value, now)) != [] {
        MissedIsTaken(job, crons[job.name], state.lastFire.value, v, w, fires, now);
      }
    }
  }

  /** Right after a run ended, a daemon that starts does not replay its fire, or one before. */
  lemma EndedIsNotMissed(before: Clock, clock: Clock, job: Job, fire: int, failed: bool, retried: bool, now: int, c: Cron, later: int)
    requires FireEnded(before, clock, job, fire, failed, retried, now) && IsCron(c)
    ensures StateOf(clock, job.name).lastFire.Some?
    ensures var missed := Once(c, FiresIn(c, StateOf(clock, job.name).lastFire.value, later));
      forall x :: x in Replay(missed, job.missed, job.catchUpCap) ==> x > fire
  {
    CatchUpMeans(c, fire, later, job.missed, job.catchUpCap);
  }
}
