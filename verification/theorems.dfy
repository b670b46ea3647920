/** The main results about the run lifecycle. Each holds at every point of every
    run of the daemon, crashes and restarts included. */
module Theorems {
  import opened Models
  import opened Tables
  import opened Gate
  import opened Lifecycle
  import opened Invariants
  import opened History

  lemma {:induction false} EveryStateIsSound(cfg: Config, acts: seq<Action>, states: seq<State>, i: nat)
    requires IsRun(cfg, acts, states) && i <= |acts|
    ensures Inv(cfg, states[i])
  {
    if i > 0 {
      EveryStateIsSound(cfg, acts, states, i - 1);
      assert StepAt(cfg, acts, states, i - 1);
      InvKept(cfg, states[i - 1], acts[i - 1]);
    }
  }

  lemma RowsAreSound(cfg: Config, acts: seq<Action>, states: seq<State>, i: nat)
    requires IsRun(cfg, acts, states) && i <= |acts|
    ensures RowsOk(cfg, states[i].runs)
  {
    EveryStateIsSound(cfg, acts, states, i);
  }

  // --- longer runs ------------------------------------------------------------------

  /** Steps that act on a verdict of the trigger gate. */
  predicate Gated(a: Action) {
    a.SkipTriggered? || (a.Claim? && a.from.ByUpstream?)
  }

  lemma RunIsGrounded(cfg: Config, acts: seq<Action>, past: seq<State>)
    requires IsRun(cfg, acts, past)
    ensures Grounded(past[|past| - 1]) && Inv(cfg, past[|past| - 1])
  {
    EveryStateIsSound(cfg, acts, past, |acts|);
    CoreInvGrounds(cfg, past[|past| - 1]);
  }

  lemma GuardedStep(cfg: Config, s: State, a: Action)
    requires Grounded(s) && Guard(cfg, s, a) && (Gated(a) ==> GateAgrees(cfg, s, a))
    ensures Step(cfg, s, a, Apply(cfg, s, a))
  {
  }

  lemma RunAppends(cfg: Config, acts: seq<Action>, past: seq<State>, a: Action, t: State)
    requires IsRun(cfg, acts, past) && Step(cfg, past[|past| - 1], a, t)
    ensures IsRun(cfg, acts + [a], past + [t])
  {
    var acts', past' := acts + [a], past + [t];
    forall i | 0 <= i < |acts'|
      ensures StepAt(cfg, acts', past', i)
    {
      assert i < |acts| ==> StepAt(cfg, acts, past, i);
    }
  }

  lemma RunGrows(cfg: Config, acts: seq<Action>, past: seq<State>, a: Action)
    requires IsRun(cfg, acts, past) && Guard(cfg, past[|past| - 1], a)
    requires Gated(a) ==> GateAgrees(cfg, past[|past| - 1], a)
    ensures Grounded(past[|past| - 1])
    ensures IsRun(cfg, acts + [a], past + [Apply(cfg, past[|past| - 1], a)])
  {
    RunIsGrounded(cfg, acts, past);
    GuardedStep(cfg, past[|past| - 1], a);
    RunAppends(cfg, acts, past, a, Apply(cfg, past[|past| - 1], a));
  }

  // --- spawned at most once ---------------------------------------------------

  lemma {:induction false} SpawnsOnlyGrow(cfg: Config, acts: seq<Action>, states: seq<State>, i: nat, j: nat, k: Key)
    requires IsRun(cfg, acts, states) && i <= j <= |acts|
    ensures states[i].spawns[k] <= states[j].spawns[k]
    decreases j
  {
    if i < j {
      SpawnsOnlyGrow(cfg, acts, states, i, j - 1, k);
      assert StepAt(cfg, acts, states, j - 1);
    }
  }

  lemma SpawnIsFirst(cfg: Config, s: State, k: Key)
    requires CoreInv(cfg, s) && Grounded(s) && Guard(cfg, s, SpawnTask(k))
    ensures s.spawns[k] == 0 && Apply(cfg, s, SpawnTask(k)).spawns[k] == 1
  {
    assert SpawnOk(s, k);
  }

  lemma SpawnCounts(cfg: Config, acts: seq<Action>, states: seq<State>, i: nat, k: Key)
    requires IsRun(cfg, acts, states) && i < |acts| && acts[i] == SpawnTask(k)
    ensures states[i].spawns[k] == 0 && states[i + 1].spawns[k] == 1
  {
    EveryStateIsSound(cfg, acts, states, i);
    assert StepAt(cfg, acts, states, i);
    SpawnIsFirst(cfg, states[i], k);
  }

  /** No (job, fire, attempt) is spawned twice, whatever crashes and restarts fall
      between the statements. */
  lemma NeverSpawnedTwice(cfg: Config, acts: seq<Action>, states: seq<State>, i: nat, j: nat, k: Key)
    requires IsRun(cfg, acts, states) && i < j < |acts|
    requires acts[i] == SpawnTask(k)
    ensures acts[j] != SpawnTask(k)
  {
    SpawnCounts(cfg, acts, states, i, k);
    SpawnsOnlyGrow(cfg, acts, states, i + 1, j, k);
    if acts[j] == SpawnTask(k) {
      SpawnCounts(cfg, acts, states, j, k);
    }
  }

  /** A CLAIMED or RETRYING row has never been spawned, so launching it is safe; a
      row that succeeded or timed out was spawned exactly once. */
  lemma SpawnsByState(cfg: Config, acts: seq<Action>, states: seq<State>, i: nat, k: Key)
    requires IsRun(cfg, acts, states) && i <= |acts|
    ensures var s := states[i];
      && (k !in s.runs ==> s.spawns[k] == 0)
      && (k in s.runs && (s.runs[k].state.Claimed? || s.runs[k].state.Retrying? || s.runs[k].state.Skipped?) ==> s.spawns[k] == 0)
      && (k in s.runs && (s.runs[k].state.Succeeded? || s.runs[k].state.TimedOut?) ==> s.spawns[k] == 1)
  {
    EveryStateIsSound(cfg, acts, states, i);
    assert SpawnOk(states[i], k);
  }

  // --- a fire's last word ------------------------------------------------------------

  lemma SettledNext(cfg: Config, acts: seq<Action>, states: seq<State>, i: nat, k: Key)
    requires IsRun(cfg, acts, states) && i < |acts| && Settled(states[i], k)
    ensures Settled(states[i + 1], k) && states[i + 1].runs[k] == states[i].runs[k]
  {
    EveryStateIsSound(cfg, acts, states, i);
    assert StepAt(cfg, acts, states, i);
    SettledKept(cfg, states[i], acts[i], k);
  }

  lemma {:induction false} SettledForever(cfg: Config, acts: seq<Action>, states: seq<State>, i: nat, j: nat, k: Key)
    requires IsRun(cfg, acts, states) && i <= j <= |acts| && Settled(states[i], k)
    ensures Settled(states[j], k) && states[j].runs[k] == states[i].runs[k]
    decreases j
  {
    if i < j {
      SettledForever(cfg, acts, states, i, j - 1, k);
      SettledNext(cfg, acts, states, j - 1, k);
    }
  }

  lemma SettledHasNothingOpen(cfg: Config, s: State, k: Key, l: Key)
    requires RowsOk(cfg, s.runs) && Settled(s, k) && SameFire(k, l) && l in s.runs
    ensures !Open(s.runs[l].state)
  {
    if Open(s.runs[l].state) {
      NothingFollowsOpen(cfg, s, l);
      NewestIsUnique(cfg, s.runs, k, l);
    }
  }

  /** A settled fire has no task that is about to spawn. */
  lemma SettledCannotSpawn(cfg: Config, s: State, k: Key, l: Key)
    requires RowsOk(cfg, s.runs) && (l in s.tasks ==> TaskOk(s, l)) && Settled(s, k) && SameFire(k, l)
    ensures !Guard(cfg, s, SpawnTask(l))
  {
    if l in s.runs {
      SettledHasNothingOpen(cfg, s, k, l);
    }
  }

  /** Once a fire is settled, by a success, a spent failure, a loss or a skip, no
      process is spawned for any attempt of it ever again. */
  lemma SettledFireNeverRunsAgain(cfg: Config, acts: seq<Action>, states: seq<State>, i: nat, j: nat, k: Key, l: Key)
    requires IsRun(cfg, acts, states) && i <= j < |acts| && Settled(states[i], k) && SameFire(k, l)
    ensures acts[j] != SpawnTask(l)
  {
    SettledForever(cfg, acts, states, i, j, k);
    EveryStateIsSound(cfg, acts, states, j);
    assert StepAt(cfg, acts, states, j);
    assert l in states[j].tasks ==> TaskOk(states[j], l);
    SettledCannotSpawn(cfg, states[j], k, l);
  }

  // --- retry chains ------------------------------------------------------------------

  /** A fire's attempts are exactly 1..n for some n: every attempt below another
      exists and failed, timed out or was lost (so nothing follows a success or a
      skip), and n is at most the policy's budget plus one per attempt lost. */
  lemma RetryChainsAreWellFormed(cfg: Config, acts: seq<Action>, states: seq<State>, i: nat, k: Key, attempt: int)
    requires IsRun(cfg, acts, states) && i <= |acts| && k in states[i].runs
    ensures k.job in cfg && 1 <= k.attempt
    ensures k.attempt <= (if cfg[k.job].retries.max > 0 then cfg[k.job].retries.max else 0) + 1 + LostBelow(states[i].runs, k)
    ensures 1 <= attempt < k.attempt ==>
      && Key(k.job, k.fire, attempt) in states[i].runs
      && Failure(states[i].runs[Key(k.job, k.fire, attempt)].state)
  {
    EveryStateIsSound(cfg, acts, states, i);
    assert RowOk(cfg, states[i].runs, k) && BoundOk(cfg, states[i].runs, k);
    if 1 <= attempt < k.attempt {
      ChainBelow(cfg, states[i].runs, k, attempt);
    }
  }

  // --- memory and store agree --------------------------------------------------------

  /** Between two blocks of a running daemon the CLAIMED and RUNNING rows are those
      of the launched, unfinished tasks, and the phase of each is what its row says. */
  lemma MemoryAgreesWithStore(cfg: Config, acts: seq<Action>, states: seq<State>, i: nat, k: Key)
    requires IsRun(cfg, acts, states) && i <= |acts| && LoopIdle(states[i])
    ensures var s := states[i];
      && (k in s.tasks <==> k in s.runs && Active(s.runs[k].state))
      && (k in s.tasks ==> (s.tasks[k] == Launched <==> s.runs[k].state == Claimed))
  {
    EveryStateIsSound(cfg, acts, states, i);
    var s := states[i];
    if k in s.tasks { assert TaskOk(s, k); }
    if k in s.runs && Active(s.runs[k].state) { assert InHand(s, k); }
  }

  /** A drain that completes leaves every row final or waiting for its retry. */
  lemma DrainLeavesNothingOpen(cfg: Config, acts: seq<Action>, states: seq<State>, i: nat, k: Key)
    requires IsRun(cfg, acts, states) && i < |acts| && acts[i] == Exit && k in states[i + 1].runs
    ensures Final(states[i + 1].runs[k].state) || states[i + 1].runs[k].state == Retrying
  {
    assert StepAt(cfg, acts, states, i);
    MemoryAgreesWithStore(cfg, acts, states, i, k);
    EveryStateIsSound(cfg, acts, states, i);
    assert RowOk(cfg, states[i].runs, k);
  }

  /** A recovery step on a store with no row in hand, that is not the last one. */
  lemma RecoversNothing(cfg: Config, s: State, a: Action)
    requires Grounded(s) && Guard(cfg, s, a) && ModeAfter(cfg, s, a).Recovering?
    requires s.mode.Recovering? && s.pc == Idle && s.tasks == map[]
    requires forall k :: k in s.runs ==> !Active(s.runs[k].state)
    ensures var t := Apply(cfg, s, a); t.runs == s.runs && t.tasks == map[] && t.pc == Idle
  {
  }

  lemma BootTouchesNothing(cfg: Config, s: State)
    requires CoreInv(cfg, s) && Grounded(s) && Guard(cfg, s, Boot)
    ensures var t := Apply(cfg, s, Boot); t.runs == s.runs && t.tasks == map[] && t.pc == Idle
  {
  }

  /** … and then the next start has nothing to recover: as long as it recovers, it
      writes no run row and launches no task. */
  lemma {:induction false} CleanStartRecoversNothing(cfg: Config, acts: seq<Action>, states: seq<State>, b: nat, j: nat)
    requires IsRun(cfg, acts, states) && b < j <= |acts| && acts[b] == Boot
    requires forall k :: k in states[b].runs ==> !Active(states[b].runs[k].state)
    requires forall m :: b < m <= j ==> states[m].mode.Recovering?
    ensures states[j].runs == states[b].runs && states[j].tasks == map[] && states[j].pc == Idle
    decreases j
  {
    assert StepAt(cfg, acts, states, j - 1);
    if b < j - 1 {
      CleanStartRecoversNothing(cfg, acts, states, b, j - 1);
      assert states[j].mode.Recovering?;
      RecoversNothing(cfg, states[j - 1], acts[j - 1]);
    } else {
      EveryStateIsSound(cfg, acts, states, b);
      BootTouchesNothing(cfg, states[b]);
    }
  }

  // --- health counts fires, not attempts -----------------------------------------------

  /** `_update_health` runs at most once per fire, over all its attempts and crashes. */
  lemma HealthOncePerFire(cfg: Config, acts: seq<Action>, states: seq<State>, i: nat, m: nat, n: nat)
    requires IsRun(cfg, acts, states) && i <= |acts| && m < n < |states[i].health|
    requires states[i].health[m].Counted? && states[i].health[n].Counted?
    ensures !SameFire(states[i].health[m].key, states[i].health[n].key)
  {
    EveryStateIsSound(cfg, acts, states, i);
  }

  /** An update is about the fire's final outcome: the row it names is settled, and
      it counted as a failure exactly if that row failed, timed out or was lost. */
  lemma HealthCountsFinalOutcomes(cfg: Config, acts: seq<Action>, states: seq<State>, i: nat, m: nat)
    requires IsRun(cfg, acts, states) && i <= |acts| && m < |states[i].health| && states[i].health[m].Counted?
    ensures var e := states[i].health[m];
      Settled(states[i], e.key) && (e.failed <==> Failure(states[i].runs[e.key].state))
  {
    EveryStateIsSound(cfg, acts, states, i);
    assert CountedOk(states[i], states[i].health[m]);
  }

  /** The breaker: the stored counter is the number of failed fires since the last
      success or resume; the job is quarantined exactly when that reaches its
      threshold; only a quarantined job has skipped fires on record. */
  lemma BreakerIsTheTrailingCount(cfg: Config, acts: seq<Action>, states: seq<State>, i: nat, j: string)
    requires IsRun(cfg, acts, states) && i <= |acts| && j in cfg
    ensures var state := StateOf(states[i].clock, j);
      && state.consecutive == Trailing(states[i].health, j)
      && (state.IsQuarantined() <==> cfg[j].quarantineAfter != 0 && Trailing(states[i].health, j) >= Threshold(cfg[j]))
      && (!state.IsQuarantined() ==> state.skipped == 0)
  {
    EveryStateIsSound(cfg, acts, states, i);
    assert BreakerOk(cfg, states[i], j);
  }

  // --- triggers --------------------------------------------------------------------------

  /** Did an upstream of `job` finish at this fire time, by success or final failure? */
  ghost predicate UpstreamFired(cfg: Config, s: State, job: string, fire: int)
    requires job in cfg
  {
    exists up ::
      && up in s.runs && up.job in cfg[job].after && up.fire == fire && Settled(s, up)
      && (s.runs[up].state == Succeeded || Failure(s.runs[up].state))
  }

  /** Every attempt of a triggered job that no operator started belongs to a fire at
      which one of its upstreams succeeded or finally failed. */
  lemma TriggersAreConserved(cfg: Config, acts: seq<Action>, states: seq<State>, i: nat, k: Key)
    requires IsRun(cfg, acts, states) && i <= |acts| && k in states[i].runs
    ensures var first := Key(k.job, k.fire, 1);
      && k.job in cfg && first in states[i].runs && first in states[i].origin
      && (cfg[k.job].Triggered() && states[i].origin[first] != ByOperator ==>
            UpstreamFired(cfg, states[i], k.job, k.fire))
  {
    EveryStateIsSound(cfg, acts, states, i);
    assert RowOk(cfg, states[i].runs, k);
    if k.attempt > 1 {
      ChainBelow(cfg, states[i].runs, k, 1);
    }
    assert OriginOk(cfg, states[i], Key(k.job, k.fire, 1));
  }

  ghost function TriggeredFires(s: State, job: string): set<int> {
    set k | k in s.runs && k.job == job && Key(job, k.fire, 1) in s.origin && s.origin[Key(job, k.fire, 1)] != ByOperator :: k.fire
  }

  /** The distinct fire times at which some upstream row of `job` ended. */
  ghost function UpstreamFires(cfg: Config, s: State, job: string): set<int>
    requires job in cfg
  {
    set k | k in s.runs && k.job in cfg[job].after && Settled(s, k)
      && (s.runs[k].state == Succeeded || Failure(s.runs[k].state)) :: k.fire
  }

  lemma SubsetIsNotLarger(a: set<int>, b: set<int>)
    requires a <= b
    ensures |a| <= |b|
  {
    if a != {} {
      EmptyOrInhabited(a);
      var x :| x in a;
      SubsetIsNotLarger(a - {x}, b - {x});
    }
  }

  /** A downstream job never fires on its own account more often than its upstreams
      fired, whatever `last_fire` does. */
  lemma DownstreamNeverOutnumbersUpstream(cfg: Config, acts: seq<Action>, states: seq<State>, i: nat, job: string)
    requires IsRun(cfg, acts, states) && i <= |acts| && job in cfg && cfg[job].Triggered()
    ensures TriggeredFires(states[i], job) <= UpstreamFires(cfg, states[i], job)
    ensures |TriggeredFires(states[i], job)| <= |UpstreamFires(cfg, states[i], job)|
  {
    var s := states[i];
    forall f | f in TriggeredFires(s, job)
      ensures f in UpstreamFires(cfg, s, job)
    {
      var k :| k in s.runs && k.job == job && k.fire == f && Key(job, f, 1) in s.origin && s.origin[Key(job, f, 1)] != ByOperator;
      TriggersAreConserved(cfg, acts, states, i, k);
    }
    SubsetIsNotLarger(TriggeredFires(s, job), UpstreamFires(cfg, s, job));
  }

  /** The upstream failure a step reacts to: a dependency skip, or a claim despite it. */
  ghost predicate ReactsToFailure(s: State, a: Action, up: Key) {
    || (a.SkipTriggered? && a.up == up)
    || (a.Claim? && a.from == ByUpstream(up) && up in s.runs && s.runs[up].state != Succeeded)
  }

  lemma ReactsToNewest(cfg: Config, s: State, a: Action, up: Key)
    requires CoreInv(cfg, s) && Grounded(s) && Enabled(cfg, s, a) && ReactsToFailure(s, a, up)
    ensures Settled(s, up) && IsLastRun(s.runs, up.job, up) && Failure(s.runs[up].state)
  {
    TriggerIsSettled(cfg, s, a);
  }

  lemma SettledIsLast(cfg: Config, s: State, up: Key, l: Key)
    requires RowsOk(cfg, s.runs) && Settled(s, up) && SameFire(up, l) && l in s.runs
    ensures l.attempt <= up.attempt && !Open(s.runs[l].state)
  {
    NewestIsUnique(cfg, s.runs, up, l);
    if Open(s.runs[l].state) {
      NothingFollowsOpen(cfg, s, l);
    }
  }

  /** A dependency skip (or a run despite the failure) is never premature: the
      failed row is the newest run of that upstream, no retry of its fire is
      pending, and at no later point of the run does the fire get another attempt. */
  lemma SkipIsNeverPremature(cfg: Config, acts: seq<Action>, states: seq<State>, i: nat, j: nat, up: Key, l: Key)
    requires IsRun(cfg, acts, states) && i < |acts| && ReactsToFailure(states[i], acts[i], up) && i <= j <= |acts|
    ensures IsLastRun(states[i].runs, up.job, up) && Failure(states[i].runs[up].state)
    ensures up in states[j].runs && states[j].runs[up] == states[i].runs[up]
    ensures SameFire(up, l) && l in states[j].runs ==> l.attempt <= up.attempt && !Open(states[j].runs[l].state)
  {
    assert StepAt(cfg, acts, states, i);
    EveryStateIsSound(cfg, acts, states, i);
    ReactsToNewest(cfg, states[i], acts[i], up);
    SettledForever(cfg, acts, states, i, j, up);
    EveryStateIsSound(cfg, acts, states, j);
    if SameFire(up, l) && l in states[j].runs {
      SettledIsLast(cfg, states[j], up, l);
    }
  }

  // --- progress -----------------------------------------------------------------------------

  /** How far along its life a row is. */
  function Rank(state: RunState): nat {
    match state
    case Retrying => 1
    case Claimed => 2
    case Running => 3
    case _ => 4
  }

  /** Every step leaves each row where it is or moves it up along the transition
      table: RETRYING < CLAIMED < RUNNING < final. The cycles of `_TRANSITIONS`
      are never used. */
  lemma RowsOnlyClimb(cfg: Config, acts: seq<Action>, states: seq<State>, i: nat, k: Key)
    requires IsRun(cfg, acts, states) && i < |acts| && k in states[i].runs
    ensures k in states[i + 1].runs
    ensures var from, to := states[i].runs[k].state, states[i + 1].runs[k].state;
      || to == from
      || (from == Retrying && to == Claimed)
      || (from == Claimed && (to == Running || to == Lost))
      || (from == Running && (to == Succeeded || to == Failed || to == TimedOut || to == Lost))
  {
    EveryStateIsSound(cfg, acts, states, i);
    assert StepAt(cfg, acts, states, i);
    StepWritesOneRow(cfg, states[i], acts[i]);
    WriteClimbs(cfg, states[i], WriteOf(cfg, states[i], acts[i]), k);
  }

  lemma WriteClimbs(cfg: Config, s: State, w: Write, k: Key)
    requires Shape(cfg, s, w) && k in s.runs
    ensures k in Put(s.runs, w)
    ensures var from, to := s.runs[k].state, Put(s.runs, w)[k].state;
      || to == from
      || (from == Retrying && to == Claimed)
      || (from == Claimed && (to == Running || to == Lost))
      || (from == Running && (to == Succeeded || to == Failed || to == TimedOut || to == Lost))
  {
    ComesFrom(s.runs[k].state, Put(s.runs, w)[k].state);
  }

  /** The attempts a fire has had. */
  ghost function Attempts(runs: Runs, job: string, fire: int): set<int> {
    set k | k in runs && k.job == job && k.fire == fire :: k.attempt
  }

  /** A fire's progress: four levels per attempt, counted at its newest one. */
  ghost function Level(runs: Runs, job: string, fire: int): int {
    var attempts := Attempts(runs, job, fire);
    if attempts == {} then 0
    else
      var k := Key(job, fire, MaxOf(attempts));
      4 * (k.attempt - 1) + (if k in runs then Rank(runs[k].state) else 0)
  }

  lemma MaxIs(s: set<int>, m: int)
    requires m in s && forall x :: x in s ==> x <= m
    ensures MaxOf(s) == m
  {
  }

  lemma LevelAt(cfg: Config, runs: Runs, k: Key)
    requires RowsOk(cfg, runs) && k in runs && k.Next() !in runs
    ensures Level(runs, k.job, k.fire) == 4 * (k.attempt - 1) + Rank(runs[k].state)
  {
    var attempts := Attempts(runs, k.job, k.fire);
    forall n | n in attempts
      ensures n <= k.attempt
    {
      NewestIsHighest(cfg, runs, k, Key(k.job, k.fire, n));
    }
    assert k.attempt in attempts;
    MaxIs(attempts, k.attempt);
  }

  lemma LevelOfNone(runs: Runs, job: string, fire: int)
    requires forall k :: k in runs ==> !(k.job == job && k.fire == fire)
    ensures Level(runs, job, fire) == 0
  {
    assert Attempts(runs, job, fire) == {};
  }

  /** Does the step change the state of some row of the fire, or create one? */
  ghost predicate Moves(s: State, t: State, job: string, fire: int) {
    exists k :: k in t.runs && k.job == job && k.fire == fire
      && (k !in s.runs || s.runs[k].state != t.runs[k].state)
  }

  /** The moves of a fire among the first `n` steps. */
  ghost function MovesUpTo(states: seq<State>, job: string, fire: int, n: nat): nat
    requires n < |states|
  {
    if n == 0 then 0
    else MovesUpTo(states, job, fire, n - 1) + (if Moves(states[n - 1], states[n], job, fire) then 1 else 0)
  }

  /** A write to some other fire leaves this one's level alone. */
  lemma LevelFrame(runs: Runs, after: Runs, job: string, fire: int)
    requires forall k: Key :: k.job == job && k.fire == fire ==>
      (k in runs <==> k in after) && (k in runs ==> runs[k].state == after[k].state)
    ensures Level(runs, job, fire) == Level(after, job, fire)
  {
    assert forall n :: n in Attempts(runs, job, fire) ==> Key(job, fire, n) in after;
    assert forall n :: n in Attempts(after, job, fire) ==> Key(job, fire, n) in runs;
    assert Attempts(runs, job, fire) == Attempts(after, job, fire);
  }

  lemma UpdateRaisesLevel(cfg: Config, s: State, w: Write)
    requires RowsOk(cfg, s.runs) && Shape(cfg, s, w) && w.Update? && w.row.state != s.runs[w.key].state
    ensures Level(Put(s.runs, w), w.key.job, w.key.fire) > Level(s.runs, w.key.job, w.key.fire)
  {
    RowsKept(cfg, s, w);
    NothingFollowsOpen(cfg, s, w.key);
    LevelAt(cfg, s.runs, w.key);
    LevelAt(cfg, Put(s.runs, w), w.key);
  }

  /** A fire without a first attempt has no attempt at all. */
  lemma NoFirstNoFire(cfg: Config, runs: Runs, job: string, fire: int, l: Key)
    requires RowsOk(cfg, runs) && Key(job, fire, 1) !in runs
    ensures l in runs ==> !(l.job == job && l.fire == fire)
  {
    assert l in runs ==> RowOk(cfg, runs, l);
    if l in runs && l.attempt > 1 {
      ChainBelow(cfg, runs, l, 1);
    }
  }

  lemma AbsentHasNoSuccessor(cfg: Config, runs: Runs, k: Key)
    requires RowsOk(cfg, runs) && k !in runs && k.attempt >= 1
    ensures k.Next() !in runs
  {
    assert k.Next().Previous() == k;
    assert k.Next() in runs ==> RowOk(cfg, runs, k.Next());
  }

  /** The level just below an attempt that is about to be created. */
  lemma LevelBeforeInsert(cfg: Config, s: State, w: Write)
    requires RowsOk(cfg, s.runs) && Shape(cfg, s, w) && w.Insert?
    ensures Level(s.runs, w.key.job, w.key.fire) == 4 * (w.key.attempt - 1)
  {
    var k := w.key;
    if k.attempt > 1 {
      LevelAt(cfg, s.runs, k.Previous());
    } else {
      forall l | l in s.runs
        ensures !(l.job == k.job && l.fire == k.fire)
      {
        NoFirstNoFire(cfg, s.runs, k.job, k.fire, l);
      }
      LevelOfNone(s.runs, k.job, k.fire);
    }
  }

  lemma InsertRaisesLevel(cfg: Config, s: State, w: Write)
    requires RowsOk(cfg, s.runs) && Shape(cfg, s, w) && w.Insert? && w.key.Next() !in s.runs
    ensures Level(Put(s.runs, w), w.key.job, w.key.fire) > Level(s.runs, w.key.job, w.key.fire)
  {
    RowsKept(cfg, s, w);
    LevelAt(cfg, Put(s.runs, w), w.key);
    LevelBeforeInsert(cfg, s, w);
  }

  /** A move of a fire raises its level. */
  lemma MoveRaisesLevel(cfg: Config, s: State, w: Write)
    requires RowsOk(cfg, s.runs) && Shape(cfg, s, w)
    requires w.Insert? || (w.Update? && w.row.state != s.runs[w.key].state)
    ensures Level(Put(s.runs, w), w.key.job, w.key.fire) > Level(s.runs, w.key.job, w.key.fire)
  {
    if w.Update? {
      UpdateRaisesLevel(cfg, s, w);
    } else {
      AbsentHasNoSuccessor(cfg, s.runs, w.key);
      InsertRaisesLevel(cfg, s, w);
    }
  }

  lemma StepRaisesLevel(cfg: Config, s: State, a: Action, job: string, fire: int)
    requires CoreInv(cfg, s) && Grounded(s) && Guard(cfg, s, a)
    ensures var t := Apply(cfg, s, a);
      Level(t.runs, job, fire) >= Level(s.runs, job, fire) + (if Moves(s, t, job, fire) then 1 else 0)
  {
    var t := Apply(cfg, s, a);
    var w := WriteOf(cfg, s, a);
    StepWritesOneRow(cfg, s, a);
    if !w.Nothing? && w.key.job == job && w.key.fire == fire && (w.Insert? || w.row.state != s.runs[w.key].state) {
      MoveRaisesLevel(cfg, s, w);
    } else {
      LevelFrame(s.runs, t.runs, job, fire);
    }
  }

  lemma MovesNext(cfg: Config, acts: seq<Action>, states: seq<State>, i: nat, job: string, fire: int)
    requires IsRun(cfg, acts, states) && i < |acts|
    ensures Level(states[i + 1].runs, job, fire)
         >= Level(states[i].runs, job, fire) + (if Moves(states[i], states[i + 1], job, fire) then 1 else 0)
  {
    EveryStateIsSound(cfg, acts, states, i);
    assert StepAt(cfg, acts, states, i);
    StepRaisesLevel(cfg, states[i], acts[i], job, fire);
  }

  lemma {:induction false} MovesAreLevels(cfg: Config, acts: seq<Action>, states: seq<State>, i: nat, job: string, fire: int)
    requires IsRun(cfg, acts, states) && i <= |acts|
    ensures MovesUpTo(states, job, fire, i) <= Level(states[i].runs, job, fire)
  {
    if i == 0 {
      LevelOfNone(states[0].runs, job, fire);
    } else {
      MovesAreLevels(cfg, acts, states, i - 1, job, fire);
      MovesNext(cfg, acts, states, i - 1, job, fire);
    }
  }

  lemma LevelIsBounded(cfg: Config, s: State, k: Key)
    requires RowsOk(cfg, s.runs) && BoundsOk(cfg, s) && k in s.runs && k.Next() !in s.runs
    ensures k.job in cfg
    ensures Level(s.runs, k.job, k.fire) <= 4 * (cfg[k.job].retries.Budget() + LostBelow(s.runs, k))
  {
    LevelAt(cfg, s.runs, k);
    assert BoundOk(cfg, s.runs, k);
    FourPerAttempt(k.attempt, Rank(s.runs[k].state), cfg[k.job].retries.Budget() + LostBelow(s.runs, k));
  }

  lemma FourPerAttempt(attempt: int, rank: int, bound: int)
    requires attempt <= bound && rank <= 4
    ensures 4 * (attempt - 1) + rank <= 4 * bound
  {
  }

  /** What a fire can go through is bounded: over a whole run its rows are created and
      moved at most four times per attempt, and it has at most the policy's budget of
      attempts plus one per attempt lost in a crash. */
  lemma FiresFinish(cfg: Config, acts: seq<Action>, states: seq<State>, i: nat, k: Key)
    requires IsRun(cfg, acts, states) && i <= |acts| && k in states[i].runs && k.Next() !in states[i].runs
    ensures k.job in cfg
    ensures MovesUpTo(states, k.job, k.fire, i) <= 4 * (cfg[k.job].retries.Budget() + LostBelow(states[i].runs, k))
  {
    EveryStateIsSound(cfg, acts, states, i);
    LevelIsBounded(cfg, states[i], k);
    MovesAreLevels(cfg, acts, states, i, k.job, k.fire);
  }

  /** Without crashes a daemon that is down, or recovering, has no row in hand. */
  ghost predicate NeverCrashed(s: State) {
    && (forall k :: k in s.runs ==> s.runs[k].state != Lost)
    && (s.mode.Down? || s.mode.Recovering? ==> s.pc == Idle && forall k :: k in s.runs ==> !Active(s.runs[k].state))
  }

  /** Only recovery declares a row lost. */
  lemma OnlyRecoveryLoses(cfg: Config, s: State, a: Action, k: Key)
    requires Grounded(s) && Guard(cfg, s, a) && !a.RecoverLost?
    requires k in s.runs ==> s.runs[k].state != Lost
    ensures k in Put(s.runs, WriteOf(cfg, s, a)) ==> Put(s.runs, WriteOf(cfg, s, a))[k].state != Lost
  {
  }

  /** Without a crash a daemon goes down only by a completed drain. */
  lemma IdleStart(cfg: Config, s: State, a: Action)
    requires CoreInv(cfg, s) && Grounded(s) && Guard(cfg, s, a) && NeverCrashed(s) && a != Crash
    requires var m := ModeAfter(cfg, s, a); m.Down? || m.Recovering?
    ensures WriteOf(cfg, s, a) == Nothing && PcAfter(cfg, s, a) == Idle
    ensures forall k :: k in s.runs ==> !Active(s.runs[k].state)
  {
    if a == Exit {
      forall k | k in s.runs
        ensures !Active(s.runs[k].state)
      {
        assert Active(s.runs[k].state) ==> InHand(s, k);
      }
    }
  }

  lemma NeverCrashedKept(cfg: Config, s: State, a: Action)
    requires CoreInv(cfg, s) && Grounded(s) && Guard(cfg, s, a) && NeverCrashed(s) && a != Crash
    ensures NeverCrashed(Apply(cfg, s, a))
  {
    var t := Apply(cfg, s, a);
    forall k | k in t.runs
      ensures t.runs[k].state != Lost
    {
      OnlyRecoveryLoses(cfg, s, a, k);
    }
    if t.mode.Down? || t.mode.Recovering? {
      IdleStart(cfg, s, a);
    }
  }

  /** Without crashes no attempt is ever lost, and a fire gets at most `max` + 1 attempts. */
  lemma {:induction false} WithoutCrashesNothingIsLost(cfg: Config, acts: seq<Action>, states: seq<State>, i: nat)
    requires IsRun(cfg, acts, states) && i <= |acts| && Crash !in acts[..i]
    ensures NeverCrashed(states[i])
  {
    if i > 0 {
      assert acts[..i] == acts[..i - 1] + [acts[i - 1]];
      WithoutCrashesNothingIsLost(cfg, acts, states, i - 1);
      EveryStateIsSound(cfg, acts, states, i - 1);
      assert StepAt(cfg, acts, states, i - 1);
      NeverCrashedKept(cfg, states[i - 1], acts[i - 1]);
    }
  }

  lemma {:induction false} NoneLostBelow(runs: Runs, k: Key)
    requires forall l :: l in runs ==> runs[l].state != Lost
    ensures LostBelow(runs, k) == 0
    decreases k.attempt
  {
    if k.attempt > 1 {
      NoneLostBelow(runs, k.Previous());
    }
  }

  lemma WithoutCrashesAttemptsAreBounded(cfg: Config, acts: seq<Action>, states: seq<State>, i: nat, k: Key)
    requires IsRun(cfg, acts, states) && i <= |acts| && Crash !in acts[..i] && k in states[i].runs
    ensures k.job in cfg && states[i].runs[k].state != Lost
    ensures k.attempt <= (if cfg[k.job].retries.max > 0 then cfg[k.job].retries.max else 0) + 1
  {
    WithoutCrashesNothingIsLost(cfg, acts, states, i);
    NoneLostBelow(states[i].runs, k);
    RetryChainsAreWellFormed(cfg, acts, states, i, k, 1);
  }
}
