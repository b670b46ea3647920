/** Processes that outlive their daemon. A run of the lifecycle is read together with
    the set of job processes alive in each state, and two attempts of one fire alive at
    once are traced to the one recovery that can bring that about. */
module Orphans {
  import opened Models
  import opened Tables
  import opened Lifecycle
  import opened Invariants
  import opened History
  import opened Theorems

  /** The processes a step ends: one whose exit the daemon awaited, and one that
      recovery kills. A pid on the row of a process that lives matches it, so a live
      orphan is killed unless its job is idempotent or its pid was never recorded. */
  ghost function Ends(cfg: Config, s: State, a: Action): set<Key>
    requires Guard(cfg, s, a)
  {
    match a
    case FinishTask(k, _, _) => {k}
    case RecoverLost(k, _) => if k.job in cfg && !cfg[k.job].idempotent && s.runs[k].pid.Some? then {k} else {}
    case _ => {}
  }

  ghost function LiveAfter(cfg: Config, s: State, live: set<Key>, a: Action): set<Key>
    requires Guard(cfg, s, a)
  {
    (if a.SpawnTask? then live + {a.key} else live) - Ends(cfg, s, a)
  }

  /** The runs of a job that have begun: what `_inflight` counts. */
  ghost function Begun(s: State, job: string): set<Key> {
    set k | k in s.tasks && k.job == job && s.tasks[k] != Launched
  }

  /** What a step needs beside its guard: the wrapper wrote its file once the process
      was gone; a retry is swept for an enabled job with a free slot. */
  ghost predicate Possible(cfg: Config, s: State, live: set<Key>, a: Action) {
    match a
    case RecoverSentinel(k, _, _) => k !in live
    case SweepRetry(k) => k.job in cfg && cfg[k.job].enabled && |Begun(s, k.job)| < cfg[k.job].concurrency
    case _ => true
  }

  datatype Trace = Trace(acts: seq<Action>, states: seq<State>, live: seq<set<Key>>) {
    ghost function State(): State
      requires states != []
    {
      states[|states| - 1]
    }

    ghost function Alive(): set<Key>
      requires live != []
    {
      live[|live| - 1]
    }
  }

  ghost predicate Moves(cfg: Config, r: Trace, i: nat)
    requires i < |r.acts| && |r.states| == |r.live| == |r.acts| + 1
  {
    && Guard(cfg, r.states[i], r.acts[i])
    && Possible(cfg, r.states[i], r.live[i], r.acts[i])
    && r.live[i + 1] <= LiveAfter(cfg, r.states[i], r.live[i], r.acts[i])  // a process may also exit by itself
  }

  /** A run of the daemon, with the processes alive in each of its states. */
  ghost predicate IsTrace(cfg: Config, r: Trace) {
    && IsRun(cfg, r.acts, r.states) && |r.live| == |r.states| && r.live[0] == {}
    && forall i :: 0 <= i < |r.acts| ==> Moves(cfg, r, i)
  }

  ghost predicate Continues(r: Trace, more: Trace) {
    r.acts <= more.acts && r.states <= more.states && r.live <= more.live
  }

  /** Two attempts of one fire run at once, `k` being the older. */
  predicate Overlap(live: set<Key>, k: Key, l: Key) {
    k in live && l in live && SameFire(k, l) && k.attempt < l.attempt
  }

  // --- where a live process can be ----------------------------------------------------

  /** Would recovery leave a live process of this row alone? */
  predicate Spared(job: Job, row: Row) {
    job.idempotent || row.pid.None?
  }

  /** The row of a live process is RUNNING, or LOST and spared. */
  ghost predicate LiveOk(cfg: Config, s: State, k: Key) {
    && k in s.runs && k.job in cfg
    && (s.runs[k].state == Running || (s.runs[k].state == Lost && Spared(cfg[k.job], s.runs[k])))
  }

  /** A LOST attempt has a successor only if the job retries lost runs. */
  ghost predicate LostOk(cfg: Config, s: State, k: Key) {
    k in s.runs && s.runs[k].state == Lost && k.Next() in s.runs ==>
      k.job in cfg && cfg[k.job].EffectiveOnLost() == LostRetries
  }

  predicate Sweepable(job: Job) { job.enabled && job.concurrency >= 1 }

  /** A retry that was taken up belongs to a job that could be swept. */
  ghost predicate RetriedOk(cfg: Config, s: State, k: Key) {
    k in s.runs && k.attempt > 1 && s.runs[k].state != Retrying ==> k.job in cfg && Sweepable(cfg[k.job])
  }

  ghost predicate OrphansOk(cfg: Config, s: State, live: set<Key>) {
    && (forall k :: k in live ==> LiveOk(cfg, s, k))
    && (forall k :: LostOk(cfg, s, k))
    && (forall k :: RetriedOk(cfg, s, k))
  }

  lemma SpawnedIsRunning(cfg: Config, s: State, k: Key)
    requires CoreInv(cfg, s) && Grounded(s) && Guard(cfg, s, SpawnTask(k))
    ensures LiveOk(cfg, Apply(cfg, s, SpawnTask(k)), k)
  {
    assert TaskOk(s, k) && RowOk(cfg, s.runs, k);
  }

  lemma LiveLostKept(cfg: Config, s: State, a: Action, k: Key)
    requires CoreInv(cfg, s) && Grounded(s) && Guard(cfg, s, a) && LiveOk(cfg, s, k) && s.runs[k].state == Lost
    ensures LiveOk(cfg, Apply(cfg, s, a), k)
  {
    StepWritesOneRow(cfg, s, a);
    FinalRowStays(s, cfg, WriteOf(cfg, s, a), k);
  }

  lemma LiveRunningKept(cfg: Config, s: State, live: set<Key>, a: Action, k: Key)
    requires Grounded(s) && Guard(cfg, s, a) && Possible(cfg, s, live, a)
    requires k in live && k !in Ends(cfg, s, a) && LiveOk(cfg, s, k) && s.runs[k].state == Running
    ensures LiveOk(cfg, Apply(cfg, s, a), k)
  {
    var w := WriteOf(cfg, s, a);
    assert w.Insert? ==> w.key !in s.runs;
  }

  lemma LiveKept(cfg: Config, s: State, live: set<Key>, a: Action, k: Key)
    requires CoreInv(cfg, s) && Grounded(s) && Guard(cfg, s, a) && Possible(cfg, s, live, a)
    requires k in LiveAfter(cfg, s, live, a) && (k in live ==> LiveOk(cfg, s, k))
    ensures LiveOk(cfg, Apply(cfg, s, a), k)
  {
    if a == SpawnTask(k) {
      SpawnedIsRunning(cfg, s, k);
    } else if s.runs[k].state == Lost {
      LiveLostKept(cfg, s, a, k);
    } else {
      LiveRunningKept(cfg, s, live, a, k);
    }
  }

  /** The retry of a lost attempt is one its job asked for. */
  lemma OldLostKept(cfg: Config, s: State, a: Action, k: Key)
    requires CoreInv(cfg, s) && Grounded(s) && Guard(cfg, s, a) && LostOk(cfg, s, k)
    requires k in s.runs && s.runs[k].state == Lost
    ensures LostOk(cfg, Apply(cfg, s, a), k)
  {
    StepWritesOneRow(cfg, s, a);
    FinalRowStays(s, cfg, WriteOf(cfg, s, a), k);
    if k.Next() !in s.runs && k.Next() in Put(s.runs, WriteOf(cfg, s, a)) {
      assert RowOk(cfg, s.runs, k) && k.Next().Previous() == k;
      NewAttempt(cfg, s, a, k.Next());
    }
  }

  /** An attempt that is not lost yet has no successor when it is declared lost. */
  lemma NewLostKept(cfg: Config, s: State, a: Action, k: Key)
    requires CoreInv(cfg, s) && Grounded(s) && Guard(cfg, s, a)
    requires k in s.runs ==> s.runs[k].state != Lost
    ensures LostOk(cfg, Apply(cfg, s, a), k)
  {
    if a.RecoverLost? && a.key == k {
      NothingFollowsOpen(cfg, s, k);
    } else {
      LosesOnly(cfg, s, a, k);
    }
  }

  lemma LosesOnly(cfg: Config, s: State, a: Action, k: Key)
    requires Grounded(s) && Guard(cfg, s, a) && !(a.RecoverLost? && a.key == k)
    requires k in s.runs ==> s.runs[k].state != Lost
    ensures k in Put(s.runs, WriteOf(cfg, s, a)) ==> Put(s.runs, WriteOf(cfg, s, a))[k].state != Lost
  {
  }

  lemma LostKept(cfg: Config, s: State, a: Action, k: Key)
    requires CoreInv(cfg, s) && Grounded(s) && Guard(cfg, s, a) && LostOk(cfg, s, k)
    ensures LostOk(cfg, Apply(cfg, s, a), k)
  {
    if k in s.runs && s.runs[k].state == Lost {
      OldLostKept(cfg, s, a, k);
    } else {
      NewLostKept(cfg, s, a, k);
    }
  }

  lemma RetriedKept(cfg: Config, s: State, live: set<Key>, a: Action, k: Key)
    requires CoreInv(cfg, s) && Grounded(s) && Guard(cfg, s, a) && Possible(cfg, s, live, a) && RetriedOk(cfg, s, k)
    ensures RetriedOk(cfg, Apply(cfg, s, a), k)
  {
    StepWritesOneRow(cfg, s, a);
  }

  /** What one step of a trace is known to be. */
  lemma TraceStep(cfg: Config, r: Trace, i: nat)
    requires IsTrace(cfg, r) && i < |r.acts|
    ensures CoreInv(cfg, r.states[i]) && Grounded(r.states[i])
    ensures Guard(cfg, r.states[i], r.acts[i]) && r.states[i + 1] == Apply(cfg, r.states[i], r.acts[i])
    ensures Possible(cfg, r.states[i], r.live[i], r.acts[i])
    ensures r.live[i + 1] <= LiveAfter(cfg, r.states[i], r.live[i], r.acts[i])
  {
    EveryStateIsSound(cfg, r.acts, r.states, i);
    assert StepAt(cfg, r.acts, r.states, i) && Moves(cfg, r, i);
  }

  lemma OrphansKept(cfg: Config, s: State, live: set<Key>, a: Action, after: set<Key>)
    requires CoreInv(cfg, s) && Grounded(s) && Guard(cfg, s, a) && Possible(cfg, s, live, a)
    requires OrphansOk(cfg, s, live) && after <= LiveAfter(cfg, s, live, a)
    ensures OrphansOk(cfg, Apply(cfg, s, a), after)
  {
    var t := Apply(cfg, s, a);
    forall k | k in after
      ensures LiveOk(cfg, t, k)
    {
      LiveKept(cfg, s, live, a, k);
    }
    forall k
      ensures LostOk(cfg, t, k) && RetriedOk(cfg, t, k)
    {
      LostKept(cfg, s, a, k);
      RetriedKept(cfg, s, live, a, k);
    }
  }

  lemma OrphansNext(cfg: Config, r: Trace, i: nat)
    requires IsTrace(cfg, r) && i < |r.acts| && OrphansOk(cfg, r.states[i], r.live[i])
    ensures OrphansOk(cfg, r.states[i + 1], r.live[i + 1])
  {
    TraceStep(cfg, r, i);
    OrphansKept(cfg, r.states[i], r.live[i], r.acts[i], r.live[i + 1]);
  }

  lemma {:induction false} OrphansAt(cfg: Config, r: Trace, i: nat)
    requires IsTrace(cfg, r) && i <= |r.acts|
    ensures OrphansOk(cfg, r.states[i], r.live[i])
  {
    if i > 0 {
      OrphansAt(cfg, r, i - 1);
      OrphansNext(cfg, r, i - 1);
    }
  }

  lemma TraceIsSound(cfg: Config, r: Trace, i: nat)
    requires IsTrace(cfg, r) && i <= |r.acts|
    ensures CoreInv(cfg, r.states[i]) && OrphansOk(cfg, r.states[i], r.live[i])
  {
    EveryStateIsSound(cfg, r.acts, r.states, i);
    OrphansAt(cfg, r, i);
  }

  // --- what an overlap means ------------------------------------------------------------

  /** Two attempts of a fire are alive at once only if the older was declared LOST while
      its process lived on, spared by recovery, and the job retries lost runs. */
  lemma OverlapMeans(cfg: Config, r: Trace, i: nat, k: Key, l: Key)
    requires IsTrace(cfg, r) && i <= |r.acts| && Overlap(r.live[i], k, l)
    ensures k in r.states[i].runs && r.states[i].runs[k].state == Lost && k.job in cfg
    ensures Spared(cfg[k.job], r.states[i].runs[k])
    ensures cfg[k.job].onLost == Some(LostRetries) || (cfg[k.job].onLost.None? && cfg[k.job].idempotent)
    ensures Sweepable(cfg[k.job])
  {
    TraceIsSound(cfg, r, i);
    OverlapAt(cfg, r.states[i], r.live[i], k, l);
  }

  lemma OverlapAt(cfg: Config, s: State, live: set<Key>, k: Key, l: Key)
    requires CoreInv(cfg, s) && OrphansOk(cfg, s, live) && Overlap(live, k, l)
    ensures k in s.runs && s.runs[k].state == Lost && k.job in cfg && Spared(cfg[k.job], s.runs[k])
    ensures cfg[k.job].EffectiveOnLost() == LostRetries && Sweepable(cfg[k.job])
  {
    assert LiveOk(cfg, s, k) && LiveOk(cfg, s, l);
    assert RowOk(cfg, s.runs, k) && RowOk(cfg, s.runs, l);
    ChainBelow(cfg, s.runs, l, k.attempt);
    if k.attempt + 1 < l.attempt {
      ChainBelow(cfg, s.runs, l, k.attempt + 1);
    }
    assert Key(k.job, k.fire, k.attempt) == k && Key(k.job, k.fire, k.attempt + 1) == k.Next();
    assert l.attempt == k.attempt + 1 ==> l == k.Next();
    assert LostOk(cfg, s, k) && RetriedOk(cfg, s, l);
  }

  lemma LostBefore(cfg: Config, r: Trace, i: nat, k: Key)
    requires IsTrace(cfg, r) && i < |r.acts| && k in r.live[i + 1]
    requires k in r.states[i + 1].runs && r.states[i + 1].runs[k].state == Lost
    ensures k in r.live[i]
    ensures (r.acts[i].RecoverLost? && r.acts[i].key == k) || (k in r.states[i].runs && r.states[i].runs[k].state == Lost)
  {
    TraceStep(cfg, r, i);
    WasLostOrIsNow(cfg, r.states[i], r.live[i], r.acts[i], k);
  }

  /** … and the recovery that declared it lost found the process alive. */
  lemma {:induction false} LostAlive(cfg: Config, r: Trace, i: nat, k: Key) returns (j: nat)
    requires IsTrace(cfg, r) && i <= |r.acts| && k in r.live[i] && k in r.states[i].runs && r.states[i].runs[k].state == Lost
    ensures j < i && r.acts[j].RecoverLost? && r.acts[j].key == k && k in r.live[j]
  {
    assert i > 0;
    LostBefore(cfg, r, i - 1, k);
    if r.acts[i - 1].RecoverLost? && r.acts[i - 1].key == k {
      j := i - 1;
    } else {
      j := LostAlive(cfg, r, i - 1, k);
    }
  }

  lemma WasLostOrIsNow(cfg: Config, s: State, live: set<Key>, a: Action, k: Key)
    requires CoreInv(cfg, s) && Grounded(s) && Guard(cfg, s, a) && k in LiveAfter(cfg, s, live, a)
    requires var runs := Put(s.runs, WriteOf(cfg, s, a)); k in runs && runs[k].state == Lost
    ensures k in live
    ensures (a.RecoverLost? && a.key == k) || (k in s.runs && s.runs[k].state == Lost)
  {
    assert a == SpawnTask(k) ==> TaskOk(s, k);
    if !(a.RecoverLost? && a.key == k) && (k in s.runs ==> s.runs[k].state != Lost) {
      LosesOnly(cfg, s, a, k);
    }
  }

  // --- the way there --------------------------------------------------------------------

  /** The trace one step longer, in which no process exits by itself. */
  ghost function Grown(cfg: Config, r: Trace, a: Action): Trace
    requires r.states != [] && r.live != [] && Grounded(r.State()) && Guard(cfg, r.State(), a)
  {
    Trace(r.acts + [a], r.states + [Apply(cfg, r.State(), a)], r.live + [LiveAfter(cfg, r.State(), r.Alive(), a)])
  }

  lemma GrownMoves(cfg: Config, r: Trace, a: Action, i: nat)
    requires IsTrace(cfg, r) && Grounded(r.State()) && Guard(cfg, r.State(), a) && Possible(cfg, r.State(), r.Alive(), a)
    requires i <= |r.acts|
    ensures Moves(cfg, Grown(cfg, r, a), i)
  {
    assert i < |r.acts| ==> Moves(cfg, r, i);
  }

  lemma TraceGrows(cfg: Config, r: Trace, a: Action) returns (more: Trace)
    requires IsTrace(cfg, r) && Guard(cfg, r.State(), a) && !Gated(a) && Possible(cfg, r.State(), r.Alive(), a)
    ensures Grounded(r.State()) && CoreInv(cfg, r.State())
    ensures IsTrace(cfg, more) && Continues(r, more)
    ensures more.State() == Apply(cfg, r.State(), a) && more.Alive() == LiveAfter(cfg, r.State(), r.Alive(), a)
  {
    RunIsGrounded(cfg, r.acts, r.states);
    RunGrows(cfg, r.acts, r.states, a);
    more := Grown(cfg, r, a);
    forall i | 0 <= i < |more.acts|
      ensures Moves(cfg, more, i)
    {
      GrownMoves(cfg, r, a, i);
    }
  }

  lemma ContinuesOn(a: Trace, b: Trace, c: Trace)
    requires Continues(a, b) && Continues(b, c)
    ensures Continues(a, c)
  {
  }

  /** A process that outlived its daemon, with its retry waiting. */
  ghost predicate Waiting(cfg: Config, r: Trace, k: Key) {
    && IsTrace(cfg, r) && k in r.Alive() && k in r.State().runs && r.State().runs[k].state == Lost
    && k.Next() in r.State().runs && r.State().runs[k.Next()].state == Retrying
  }

  lemma TodoIsOpen(cfg: Config, s: State, x: Key)
    requires CoreInv(cfg, s) && s.mode.Recovering? && x in s.mode.todo
    ensures x in s.runs && x.job in cfg && Open(s.runs[x].state)
  {
    assert x in s.runs && RowOk(cfg, s.runs, x);
  }

  /** The steps of recovery that finish one row, whatever its state. */
  lemma RecoverOne(cfg: Config, r: Trace, k: Key, x: Key) returns (more: Trace)
    requires Waiting(cfg, r, k) && r.State().pc == Idle && r.State().mode.Recovering? && x in r.State().mode.todo
    ensures Waiting(cfg, more, k) && Continues(r, more)
    ensures more.State().pc == Idle && more.State().mode == Recovering(r.State().mode.todo - {x})
  {
    RunIsGrounded(cfg, r.acts, r.states);
    var s := r.State();
    TodoIsOpen(cfg, s, x);
    if s.runs[x].state == Retrying {
      more := TraceGrows(cfg, r, RecoverRetrying(x));
    } else if s.runs[x].state == Claimed {
      more := RecoverOneClaimed(cfg, r, k, x);
    } else {
      more := RecoverOneRunning(cfg, r, k, x);
    }
  }

  /** The tail of a recovered row. */
  lemma SetsFire(cfg: Config, r: Trace, k: Key, x: Key) returns (more: Trace)
    requires Waiting(cfg, r, k) && r.State().pc == Recovered(x)
    ensures Waiting(cfg, more, k) && Continues(r, more)
    ensures more.State().pc == Idle && more.State().mode == r.State().mode
  {
    more := TraceGrows(cfg, r, OweSetFire);
  }

  lemma RecoverOneClaimed(cfg: Config, r: Trace, k: Key, x: Key) returns (more: Trace)
    requires Waiting(cfg, r, k) && r.State().pc == Idle && r.State().mode.Recovering? && x in r.State().mode.todo
    requires x in r.State().runs && r.State().runs[x].state == Claimed
    ensures Waiting(cfg, more, k) && Continues(r, more)
    ensures more.State().pc == Idle && more.State().mode == Recovering(r.State().mode.todo - {x})
  {
    var one := TraceGrows(cfg, r, RecoverClaimed(x));
    more := SetsFire(cfg, one, k, x);
    ContinuesOn(r, one, more);
  }

  lemma RecoverOneRunning(cfg: Config, r: Trace, k: Key, x: Key) returns (more: Trace)
    requires Waiting(cfg, r, k) && r.State().pc == Idle && r.State().mode.Recovering? && x in r.State().mode.todo
    requires x in r.State().runs && r.State().runs[x].state == Running && x.job in cfg
    ensures Waiting(cfg, more, k) && Continues(r, more)
    ensures more.State().pc == Idle && more.State().mode == Recovering(r.State().mode.todo - {x})
  {
    var one := TraceGrows(cfg, r, RecoverLost(x, 0));
    var two := EndLostRow(cfg, one, k, x);
    more := SetsFire(cfg, two, k, x);
    ContinuesOn(r, one, two);
    ContinuesOn(r, two, more);
  }

  lemma EndLostRow(cfg: Config, r: Trace, k: Key, x: Key) returns (more: Trace)
    requires Waiting(cfg, r, k) && r.State().pc == GoneLost(x) && x.job in cfg && r.State().mode.Recovering?
    ensures Waiting(cfg, more, k) && Continues(r, more)
    ensures more.State().pc == Recovered(x) && more.State().mode == r.State().mode
  {
    if cfg[x.job].EffectiveOnLost() == LostRetries {
      more := TraceGrows(cfg, r, OweRetry(0));
    } else {
      more := TraceGrows(cfg, r, OweHealth(0));
    }
  }

  /** Recovery can always be brought to its end. */
  lemma {:induction false} RecoveryEnds(cfg: Config, r: Trace, k: Key) returns (more: Trace)
    requires Waiting(cfg, r, k) && r.State().pc == Idle && r.State().mode.Recovering?
    ensures Waiting(cfg, more, k) && Continues(r, more)
    ensures more.State().pc == Idle && more.State().mode == Recovering({})
    decreases |r.State().mode.todo|
  {
    if r.State().mode.todo == {} {
      more := r;
    } else {
      var x :| x in r.State().mode.todo;
      var one := RecoverOne(cfg, r, k, x);
      more := RecoveryEnds(cfg, one, k);
      ContinuesOn(r, one, more);
    }
  }

  /** The daemon ticks, and no task has begun. */
  ghost predicate JustUp(s: State) {
    s.pc == Idle && s.mode == Up && forall k :: k in s.tasks ==> s.tasks[k] == Launched
  }

  lemma RecoveryIsUp(cfg: Config, r: Trace, k: Key) returns (more: Trace)
    requires Waiting(cfg, r, k) && r.State().pc == Idle && r.State().mode == Recovering({})
    ensures Waiting(cfg, more, k) && Continues(r, more) && JustUp(more.State())
  {
    more := TraceGrows(cfg, r, RecoverDone);
  }

  lemma OperatorResumes(cfg: Config, r: Trace, k: Key) returns (more: Trace)
    requires Waiting(cfg, r, k) && JustUp(r.State()) && k.job in cfg && StateOf(r.State().clock, k.job).IsQuarantined()
    ensures Waiting(cfg, more, k) && Continues(r, more) && JustUp(more.State())
    ensures StateOf(more.State().clock, k.job).IsQuarantined() && StateOf(more.State().clock, k.job).resumeRequested
  {
    more := TraceGrows(cfg, r, RequestResume(k.job, 0));
  }

  /** An operator can lift a quarantine that holds the retry back. */
  lemma QuarantineLifts(cfg: Config, r: Trace, k: Key) returns (more: Trace)
    requires Waiting(cfg, r, k) && JustUp(r.State()) && k.job in cfg
    ensures Waiting(cfg, more, k) && Continues(r, more) && JustUp(more.State())
    ensures !StateOf(more.State().clock, k.job).IsQuarantined()
  {
    if StateOf(r.State().clock, k.job).IsQuarantined() {
      var one := OperatorResumes(cfg, r, k);
      more := TraceGrows(cfg, one, ClearQuarantine(k.job, 0));
      ContinuesOn(r, one, more);
    } else {
      more := r;
    }
  }

  lemma NothingBegun(s: State, job: string)
    requires forall k :: k in s.tasks ==> s.tasks[k] == Launched
    ensures Begun(s, job) == {}
  {
  }

  /** The retry has its task, in this phase, and the orphan lives on. */
  ghost predicate RetryAt(cfg: Config, r: Trace, k: Key, phase: Phase) {
    && IsTrace(cfg, r) && r.State().pc == Idle && r.State().mode == Up
    && k in r.Alive() && k.Next() in r.State().tasks && r.State().tasks[k.Next()] == phase
  }

  lemma RetryIsSwept(cfg: Config, r: Trace, k: Key) returns (more: Trace)
    requires Waiting(cfg, r, k) && JustUp(r.State()) && k.job in cfg && Sweepable(cfg[k.job])
    requires !StateOf(r.State().clock, k.job).IsQuarantined()
    ensures RetryAt(cfg, more, k, Launched) && Continues(r, more)
  {
    NothingBegun(r.State(), k.job);
    more := TraceGrows(cfg, r, SweepRetry(k.Next()));
  }

  lemma RetryStarts(cfg: Config, r: Trace, k: Key) returns (more: Trace)
    requires RetryAt(cfg, r, k, Launched)
    ensures RetryAt(cfg, more, k, Marked) && Continues(r, more)
  {
    RunIsGrounded(cfg, r.acts, r.states);
    more := TraceGrows(cfg, r, StartTask(k.Next()));
  }

  lemma RetryMeetsOrphan(cfg: Config, r: Trace, k: Key) returns (more: Trace)
    requires RetryAt(cfg, r, k, Marked)
    ensures IsTrace(cfg, more) && Continues(r, more) && Overlap(more.Alive(), k, k.Next())
  {
    more := TraceGrows(cfg, r, SpawnTask(k.Next()));
  }

  /** The waiting retry is taken up, and its process started beside the orphan. */
  lemma RetrySpawns(cfg: Config, r: Trace, k: Key) returns (more: Trace)
    requires Waiting(cfg, r, k) && JustUp(r.State()) && k.job in cfg && Sweepable(cfg[k.job])
    requires !StateOf(r.State().clock, k.job).IsQuarantined()
    ensures IsTrace(cfg, more) && Continues(r, more) && Overlap(more.Alive(), k, k.Next())
  {
    var one := RetryIsSwept(cfg, r, k);
    var two := RetryStarts(cfg, one, k);
    more := RetryMeetsOrphan(cfg, two, k);
    ContinuesOn(r, one, two);
    ContinuesOn(r, two, more);
  }

  /** Recovery has come to a RUNNING row. */
  ghost predicate Recovers(cfg: Config, r: Trace, k: Key) {
    && IsTrace(cfg, r) && r.State().pc == Idle && r.State().mode.Recovering? && k in r.State().mode.todo
    && k in r.State().runs && r.State().runs[k].state == Running && k.job in cfg
  }

  lemma OrphanIsLost(cfg: Config, r: Trace, k: Key) returns (more: Trace)
    requires Recovers(cfg, r, k) && k in r.Alive() && Spared(cfg[k.job], r.State().runs[k])
    ensures IsTrace(cfg, more) && Continues(r, more) && k in more.Alive()
    ensures more.State().pc == GoneLost(k) && more.State().mode.Recovering?
  {
    more := TraceGrows(cfg, r, RecoverLost(k, 0));
  }

  lemma OrphanIsRetried(cfg: Config, r: Trace, k: Key) returns (more: Trace)
    requires IsTrace(cfg, r) && k in r.Alive() && r.State().pc == GoneLost(k) && r.State().mode.Recovering?
    requires k.job in cfg && cfg[k.job].EffectiveOnLost() == LostRetries
    ensures Waiting(cfg, more, k) && Continues(r, more)
    ensures more.State().pc == Recovered(k) && more.State().mode == r.State().mode
  {
    RunIsGrounded(cfg, r.acts, r.states);
    more := TraceGrows(cfg, r, OweRetry(0));
  }

  lemma OrphanWaits(cfg: Config, r: Trace, k: Key) returns (more: Trace)
    requires Recovers(cfg, r, k) && k in r.Alive() && Spared(cfg[k.job], r.State().runs[k])
    requires cfg[k.job].EffectiveOnLost() == LostRetries
    ensures Waiting(cfg, more, k) && Continues(r, more)
    ensures more.State().pc == Idle && more.State().mode.Recovering?
  {
    var one := OrphanIsLost(cfg, r, k);
    var two := OrphanIsRetried(cfg, one, k);
    more := SetsFire(cfg, two, k, k);
    ContinuesOn(r, one, two);
    ContinuesOn(r, two, more);
  }

  lemma OrphanIsOvertaken(cfg: Config, r: Trace, k: Key) returns (more: Trace)
    requires Recovers(cfg, r, k) && k in r.Alive() && Spared(cfg[k.job], r.State().runs[k])
    requires cfg[k.job].EffectiveOnLost() == LostRetries && Sweepable(cfg[k.job])
    ensures IsTrace(cfg, more) && Continues(r, more) && Overlap(more.Alive(), k, k.Next())
  {
    var one := OrphanWaits(cfg, r, k);
    var two := RecoveryEnds(cfg, one, k);
    var three := RecoveryIsUp(cfg, two, k);
    var four := QuarantineLifts(cfg, three, k);
    more := RetrySpawns(cfg, four, k);
    ContinuesOn(r, one, two);
    ContinuesOn(r, two, three);
    ContinuesOn(r, three, four);
    ContinuesOn(r, four, more);
  }

  // --- exactly when ---------------------------------------------------------------------

  /** A row with no task that is RUNNING or final: nobody supervises it. */
  ghost predicate Unsupervised(s: State, k: Key) {
    k in s.runs && k !in s.tasks && (s.runs[k].state == Running || Final(s.runs[k].state))
  }

  lemma NoTaskForIt(cfg: Config, s: State, a: Action, k: Key)
    requires Grounded(s) && Guard(cfg, s, a) && Unsupervised(s, k)
    ensures k !in TasksAfter(cfg, s, a) && a != SpawnTask(k)
  {
  }

  lemma PidStays(cfg: Config, s: State, a: Action, k: Key)
    requires Grounded(s) && Guard(cfg, s, a) && Unsupervised(s, k) && s.runs[k].state == Running
    ensures var runs := Put(s.runs, WriteOf(cfg, s, a));
      k in runs && runs[k].pid == s.runs[k].pid && (runs[k].state == Running || Final(runs[k].state))
  {
    var w := WriteOf(cfg, s, a);
    assert w.Insert? ==> w.key !in s.runs;
  }

  lemma UnsupervisedKept(cfg: Config, s: State, live: set<Key>, a: Action, k: Key)
    requires CoreInv(cfg, s) && Grounded(s) && Guard(cfg, s, a) && Unsupervised(s, k)
    ensures Unsupervised(Apply(cfg, s, a), k) && Apply(cfg, s, a).runs[k].pid == s.runs[k].pid
    ensures k in LiveAfter(cfg, s, live, a) ==> k in live
  {
    NoTaskForIt(cfg, s, a, k);
    if s.runs[k].state == Running {
      PidStays(cfg, s, a, k);
    } else {
      StepWritesOneRow(cfg, s, a);
      FinalRowStays(s, cfg, WriteOf(cfg, s, a), k);
    }
  }

  lemma UnsupervisedNext(cfg: Config, r: Trace, i: nat, k: Key)
    requires IsTrace(cfg, r) && i < |r.acts| && Unsupervised(r.states[i], k)
    ensures Unsupervised(r.states[i + 1], k) && r.states[i + 1].runs[k].pid == r.states[i].runs[k].pid
    ensures k in r.live[i + 1] ==> k in r.live[i]
  {
    TraceStep(cfg, r, i);
    UnsupervisedKept(cfg, r.states[i], r.live[i], r.acts[i], k);
  }

  /** From such a point on the row keeps its pid, and its process can only end. */
  lemma {:induction false} UnsupervisedForever(cfg: Config, r: Trace, i: nat, j: nat, k: Key)
    requires IsTrace(cfg, r) && i <= j <= |r.acts| && Unsupervised(r.states[i], k)
    ensures Unsupervised(r.states[j], k) && r.states[j].runs[k].pid == r.states[i].runs[k].pid
    ensures k in r.live[j] ==> k in r.live[i]
    decreases j
  {
    if i < j {
      UnsupervisedForever(cfg, r, i, j - 1, k);
      UnsupervisedNext(cfg, r, j - 1, k);
    }
  }

  /** Can the run go on so that the process of `k` meets that of a later attempt? */
  ghost predicate CanOverlap(cfg: Config, r: Trace, k: Key) {
    exists more: Trace, l: Key :: IsTrace(cfg, more) && Continues(r, more) && Overlap(more.Alive(), k, l)
  }

  lemma OverlapFromHere(cfg: Config, r: Trace, more: Trace, k: Key, l: Key)
    requires Recovers(cfg, r, k) && IsTrace(cfg, more) && Continues(r, more) && Overlap(more.Alive(), k, l)
    ensures k in r.Alive() && Spared(cfg[k.job], r.State().runs[k])
    ensures cfg[k.job].EffectiveOnLost() == LostRetries && Sweepable(cfg[k.job])
  {
    var i, j := |r.acts|, |more.acts|;
    assert more.states[i] == r.State() && more.live[i] == r.Alive();
    RunIsGrounded(cfg, r.acts, r.states);
    UnsupervisedForever(cfg, more, i, j, k);
    OverlapMeans(cfg, more, j, k, l);
  }

  /** At a recovery: the process of this attempt may come to run beside its retry if and
      only if it is alive and recovery spares it, because the job is idempotent or the
      pid was not recorded yet, and the job retries lost runs (`on_lost` says so, or nothing
      and the job is idempotent), is enabled and has a slot. */
  lemma OverlapIff(cfg: Config, r: Trace, k: Key)
    requires Recovers(cfg, r, k)
    ensures CanOverlap(cfg, r, k) <==>
      && k in r.Alive() && (cfg[k.job].idempotent || r.State().runs[k].pid.None?)
      && (cfg[k.job].onLost == Some(LostRetries) || (cfg[k.job].onLost.None? && cfg[k.job].idempotent))
      && cfg[k.job].enabled && cfg[k.job].concurrency >= 1
  {
    if CanOverlap(cfg, r, k) {
      var more: Trace, l: Key :| IsTrace(cfg, more) && Continues(r, more) && Overlap(more.Alive(), k, l);
      OverlapFromHere(cfg, r, more, k, l);
    } else if k in r.Alive() && Spared(cfg[k.job], r.State().runs[k])
      && cfg[k.job].EffectiveOnLost() == LostRetries && Sweepable(cfg[k.job]) {
      var more := OrphanIsOvertaken(cfg, r, k);
    }
  }

  // --- over all runs --------------------------------------------------------------------

  const START := Trace([], [INIT], [{}])

  /** The only row is that of a run in this state, with its task in this phase. */
  ghost predicate OnlyRun(cfg: Config, r: Trace, k: Key, state: RunState, phase: Phase) {
    && IsTrace(cfg, r) && k.job in cfg && r.State().pc == Idle && r.State().mode == Up
    && r.State().runs == map[k := CLAIMED_ROW.(state := state)] && r.State().tasks == map[k := phase]
  }

  lemma FirstClaim(cfg: Config, r: Trace, k: Key) returns (more: Trace)
    requires IsTrace(cfg, r) && r.State() == INIT.(mode := Up) && k.job in cfg && k.attempt == 1
    ensures OnlyRun(cfg, more, k, Claimed, Launched)
  {
    more := TraceGrows(cfg, r, Claim(k, ByOperator));
  }

  lemma FirstStart(cfg: Config, r: Trace, k: Key) returns (more: Trace)
    requires OnlyRun(cfg, r, k, Claimed, Launched)
    ensures OnlyRun(cfg, more, k, Running, Marked)
  {
    more := TraceGrows(cfg, r, StartTask(k));
  }

  lemma FirstSpawn(cfg: Config, r: Trace, k: Key) returns (more: Trace)
    requires OnlyRun(cfg, r, k, Running, Marked)
    ensures OnlyRun(cfg, more, k, Running, Spawned) && k in more.Alive()
  {
    more := TraceGrows(cfg, r, SpawnTask(k));
  }

  lemma FirstCrash(cfg: Config, r: Trace, k: Key) returns (more: Trace)
    requires OnlyRun(cfg, r, k, Running, Spawned) && k in r.Alive()
    ensures Recovers(cfg, more, k) && k in more.Alive() && more.State().runs[k].pid == None
  {
    var down := TraceGrows(cfg, r, Crash);
    more := TraceGrows(cfg, down, Boot);
    assert k in OpenRuns(down.State().runs);
  }

  /** A first run of a job crashes before its pid is recorded; the next daemon comes to
      its row. */
  lemma CrashAfterSpawn(cfg: Config, job: string) returns (r: Trace, k: Key)
    requires job in cfg
    ensures Recovers(cfg, r, k) && k.job == job && k in r.Alive() && r.State().runs[k].pid == None
  {
    k := Key(job, 0, 1);
    var up := FirstBoot(cfg);
    var claimed := FirstClaim(cfg, up, k);
    var started := FirstStart(cfg, claimed, k);
    var spawned := FirstSpawn(cfg, started, k);
    r := FirstCrash(cfg, spawned, k);
  }

  lemma FirstBoot(cfg: Config) returns (r: Trace)
    ensures IsTrace(cfg, r) && r.State() == INIT.(mode := Up) && r.Alive() == {}
  {
    var r1 := TraceGrows(cfg, START, Boot);
    assert OpenRuns(INIT.runs) == {};
    r := TraceGrows(cfg, r1, RecoverDone);
  }

  /** Some run of the daemon has two attempts of one of this job's fires alive at once. */
  ghost predicate EverOverlaps(cfg: Config, job: string) {
    exists r: Trace, k: Key, l: Key :: IsTrace(cfg, r) && Overlap(r.Alive(), k, l) && k.job == job
  }

  /** A job that is not idempotent is not safe from that either: whether it can happen
      is decided by `on_lost` alone, and by idempotence only where there is none, for any
      job that can be swept. */
  lemma EverOverlapsIff(cfg: Config, job: string)
    requires job in cfg
    ensures EverOverlaps(cfg, job) <==>
      && (cfg[job].onLost == Some(LostRetries) || (cfg[job].onLost.None? && cfg[job].idempotent))
      && cfg[job].enabled && cfg[job].concurrency >= 1
  {
    if cfg[job].EffectiveOnLost() == LostRetries && Sweepable(cfg[job]) {
      var r, k := CrashAfterSpawn(cfg, job);
      var more := OrphanIsOvertaken(cfg, r, k);
      assert Overlap(more.Alive(), k, k.Next());
    }
    if EverOverlaps(cfg, job) {
      var r: Trace, k: Key, l: Key :| IsTrace(cfg, r) && Overlap(r.Alive(), k, l) && k.job == job;
      OverlapMeans(cfg, r, |r.acts|, k, l);
    }
  }
}
