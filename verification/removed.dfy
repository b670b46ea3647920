/** Changing configurations: the runs of the daemon over restarts and reloads that take
    jobs out and bring them back, and what becomes of the rows of a job taken out. */
module Removed {
  import opened Models
  import opened Tables
  import opened Lifecycle
  import opened Invariants

  // --- closing the row of a removed job ---------------------------------------------

  /** `_to_lost`: the row is finished; a move the table forbids is suppressed. */
  function ToLost(row: Row, now: int): Row {
    row.(finishedAt := Some(now), state := if Allowed(row.state, Lost) then Lost else row.state)
  }

  /** The row of a job that is no longer configured is just closed. */
  method CloseRemoved(store: Store, key: Key, now: int)
    requires key in store.runs
    modifies store`runs
    ensures store.runs == old(store.runs)[key := ToLost(old(store.runs)[key], now)]
  {
    var run := new Run(key, store.runs[key]);
    run.finishedAt := Some(now);
    var ok := run.TransitionTo(Lost);
    store.Mark(run);
  }

  // --- histories -----------------------------------------------------------------

  datatype World = World(cfg: Config, s: State)

  /** A step under a configuration; recovery closing the row of an unknown job; a
      reload, or another file at the next start. */
  datatype Event = Act(cfg: Config, a: Action) | CloseRow(key: Key, now: int) | Configure(cfg: Config)

  /** What recovery takes up has a job, or else it is only closed. */
  predicate TakesUp(a: Action) { a.RecoverRetrying? || a.RecoverClaimed? || a.RecoverSentinel? || a.RecoverLost? }

  predicate MayClose(w: World, k: Key) {
    w.s.pc == Idle && w.s.mode.Recovering? && k in w.s.mode.todo && k in w.s.runs && k.job !in w.cfg
  }

  function Closed(s: State, k: Key, now: int): State
    requires k in s.runs && s.mode.Recovering?
  {
    s.(runs := s.runs[k := ToLost(s.runs[k], now)], mode := Recovering(s.mode.todo - {k}))
  }

  /** A block goes on with the job it was started for, whatever a reload says since. */
  ghost predicate Happens(w: World, e: Event, v: World) {
    match e
    case Act(cfg, a) =>
      && v.cfg == w.cfg && (cfg == w.cfg || InBlock(a)) && (TakesUp(a) ==> a.key.job in cfg)
      && Step(cfg, w.s, a, v.s)
    case CloseRow(k, now) => MayClose(w, k) && v == World(w.cfg, Closed(w.s, k, now))
    case Configure(cfg) => w.s.pc == Idle && !w.s.mode.Recovering? && v == World(cfg, w.s)
  }

  datatype History = History(events: seq<Event>, worlds: seq<World>) {
    ghost function Now(): World
      requires worlds != []
    {
      worlds[|worlds| - 1]
    }
  }

  ghost predicate HappensAt(h: History, i: nat)
    requires i < |h.events| && i + 1 < |h.worlds|
  {
    Happens(h.worlds[i], h.events[i], h.worlds[i + 1])
  }

  ghost predicate Lived(h: History) {
    && |h.worlds| == |h.events| + 1 && h.worlds[0].s == INIT
    && forall i :: 0 <= i < |h.events| ==> HappensAt(h, i)
  }

  ghost predicate GoesOn(h: History, more: History) {
    h.events <= more.events && h.worlds <= more.worlds
  }

  // --- what every history keeps ------------------------------------------------------

  /** One key: its task fits its row, and its spawns fit both. */
  ghost predicate Fits(s: State, k: Key) {
    && (Undecided(s.pc, k) ==> k in s.runs)
    && (k in s.tasks ==> TaskOk(s, k))
    && (s.mode == Down ==> k !in s.tasks && s.pc == Idle)
    && (s.mode.Recovering? ==> k !in s.tasks || k !in s.mode.todo)
    && s.spawns[k] <= 1
    && (s.spawns[k] > 0 ==> k in s.runs && (s.runs[k].state.Running? || Outcome(s.runs[k].state) || s.runs[k].state.Lost?))
    && (k in s.tasks && s.tasks[k] == Marked && !Ending(s.pc, k) ==> s.spawns[k] == 0)
  }

  lemma FitsInBlock(cfg: Config, s: State, a: Action, k: Key)
    requires Fits(s, k) && Grounded(s) && Guard(cfg, s, a) && InBlock(a)
    ensures Fits(Apply(cfg, s, a), k)
  {
  }

  lemma FitsRecovering(cfg: Config, s: State, a: Action, k: Key)
    requires Fits(s, k) && Grounded(s) && Guard(cfg, s, a) && InRecovery(a)
    ensures Fits(Apply(cfg, s, a), k)
  {
  }

  lemma FitsByTask(cfg: Config, s: State, a: Action, k: Key)
    requires Fits(s, k) && Grounded(s) && Guard(cfg, s, a) && InTask(a)
    ensures Fits(Apply(cfg, s, a), k)
  {
  }

  lemma FitsByFinish(cfg: Config, s: State, a: Action, k: Key)
    requires Fits(s, k) && Grounded(s) && Guard(cfg, s, a) && a.FinishTask?
    ensures Fits(Apply(cfg, s, a), k)
  {
  }

  lemma FitsByTick(cfg: Config, s: State, a: Action, k: Key)
    requires Fits(s, k) && Grounded(s) && Guard(cfg, s, a) && InTick(a)
    ensures Fits(Apply(cfg, s, a), k)
  {
  }

  lemma FitsOtherwise(cfg: Config, s: State, a: Action, k: Key)
    requires Fits(s, k) && Grounded(s) && Guard(cfg, s, a)
    requires !InBlock(a) && !InRecovery(a) && !InTask(a) && !InTick(a) && !a.FinishTask?
    ensures Fits(Apply(cfg, s, a), k)
  {
  }

  lemma FitsOn(w: World, e: Event, v: World, k: Key)
    requires Fits(w.s, k) && Happens(w, e, v)
    ensures Fits(v.s, k)
  {
    match e
    case Act(cfg, a) =>
      if InBlock(a) {
        FitsInBlock(cfg, w.s, a, k);
      } else if InRecovery(a) {
        FitsRecovering(cfg, w.s, a, k);
      } else if InTask(a) {
        FitsByTask(cfg, w.s, a, k);
      } else if a.FinishTask? {
        FitsByFinish(cfg, w.s, a, k);
      } else if InTick(a) {
        FitsByTick(cfg, w.s, a, k);
      } else {
        FitsOtherwise(cfg, w.s, a, k);
      }
    case CloseRow(_, _) =>
    case Configure(_) =>
  }

  lemma {:induction false} EveryKeyFits(h: History, i: nat, k: Key)
    requires Lived(h) && i <= |h.events|
    ensures Fits(h.worlds[i].s, k)
  {
    if i > 0 {
      EveryKeyFits(h, i - 1, k);
      assert HappensAt(h, i - 1);
      FitsOn(h.worlds[i - 1], h.events[i - 1], h.worlds[i], k);
    }
  }

  /** However the configuration changes, no attempt is spawned twice, and one that is
      waiting, claimed, skipped or unknown was never spawned. */
  lemma NeverSpawnedTwiceWhateverChanges(h: History, i: nat, k: Key)
    requires Lived(h) && i <= |h.events|
    ensures var s := h.worlds[i].s;
      && s.spawns[k] <= 1
      && (s.spawns[k] == 1 ==> k in s.runs && (s.runs[k].state.Running? || Outcome(s.runs[k].state) || s.runs[k].state.Lost?))
  {
    EveryKeyFits(h, i, k);
  }

  // --- a row nobody will ever move -----------------------------------------------------

  /** Finished as far as `open_runs` can tell, and in nobody's hands. */
  ghost predicate Frozen(s: State, k: Key) {
    && k in s.runs && s.runs[k].finishedAt.Some? && s.runs[k].state != Retrying
    && k !in s.tasks && !Undecided(s.pc, k) && (s.mode.Recovering? ==> k !in s.mode.todo)
  }

  /** The row, its spawns and its successor are as they were. */
  ghost predicate SameFire(s: State, t: State, k: Key) {
    && k in s.runs && k in t.runs && t.runs[k] == s.runs[k] && t.spawns[k] == s.spawns[k]
    && (k.Next() in t.runs <==> k.Next() in s.runs)
  }

  lemma FrozenInBlock(cfg: Config, s: State, a: Action, k: Key)
    requires Grounded(s) && Guard(cfg, s, a) && Frozen(s, k) && k.attempt >= 1
    requires InBlock(a)
    ensures Frozen(Apply(cfg, s, a), k) && SameFire(s, Apply(cfg, s, a), k)
  {
  }

  lemma FrozenRecovering(cfg: Config, s: State, a: Action, k: Key)
    requires Grounded(s) && Guard(cfg, s, a) && Frozen(s, k) && k.attempt >= 1
    requires InRecovery(a)
    ensures Frozen(Apply(cfg, s, a), k) && SameFire(s, Apply(cfg, s, a), k)
  {
  }

  lemma FrozenByTask(cfg: Config, s: State, a: Action, k: Key)
    requires Grounded(s) && Guard(cfg, s, a) && Frozen(s, k) && k.attempt >= 1
    requires InTask(a)
    ensures Frozen(Apply(cfg, s, a), k) && SameFire(s, Apply(cfg, s, a), k)
  {
  }

  lemma FrozenByFinish(cfg: Config, s: State, a: Action, k: Key)
    requires Grounded(s) && Guard(cfg, s, a) && Frozen(s, k) && k.attempt >= 1
    requires a.FinishTask?
    ensures Frozen(Apply(cfg, s, a), k) && SameFire(s, Apply(cfg, s, a), k)
  {
  }

  lemma FrozenByTick(cfg: Config, s: State, a: Action, k: Key)
    requires Grounded(s) && Guard(cfg, s, a) && Frozen(s, k) && k.attempt >= 1
    requires InTick(a)
    ensures Frozen(Apply(cfg, s, a), k) && SameFire(s, Apply(cfg, s, a), k)
  {
  }

  lemma FrozenOtherwise(cfg: Config, s: State, a: Action, k: Key)
    requires Grounded(s) && Guard(cfg, s, a) && Frozen(s, k) && k.attempt >= 1
    requires !InBlock(a) && !InRecovery(a) && !InTask(a) && !InTick(a) && !a.FinishTask?
    ensures Frozen(Apply(cfg, s, a), k) && SameFire(s, Apply(cfg, s, a), k)
  {
  }

  lemma FrozenStep(cfg: Config, s: State, a: Action, k: Key)
    requires Grounded(s) && Guard(cfg, s, a) && Frozen(s, k) && k.attempt >= 1
    ensures Frozen(Apply(cfg, s, a), k) && SameFire(s, Apply(cfg, s, a), k)
  {
    if InBlock(a) {
      FrozenInBlock(cfg, s, a, k);
    } else if InRecovery(a) {
      FrozenRecovering(cfg, s, a, k);
    } else if InTask(a) {
      FrozenByTask(cfg, s, a, k);
    } else if a.FinishTask? {
      FrozenByFinish(cfg, s, a, k);
    } else if InTick(a) {
      FrozenByTick(cfg, s, a, k);
    } else {
      FrozenOtherwise(cfg, s, a, k);
    }
  }

  lemma FrozenOn(w: World, e: Event, v: World, k: Key)
    requires Happens(w, e, v) && Frozen(w.s, k) && k.attempt >= 1
    ensures Frozen(v.s, k) && SameFire(w.s, v.s, k)
  {
    match e
    case Act(cfg, a) => FrozenStep(cfg, w.s, a, k);
    case CloseRow(_, _) =>
    case Configure(_) =>
  }

  lemma {:induction false} FrozenForGood(h: History, i: nat, j: nat, k: Key)
    requires Lived(h) && i <= j <= |h.events| && Frozen(h.worlds[i].s, k) && k.attempt >= 1
    ensures Frozen(h.worlds[j].s, k) && SameFire(h.worlds[i].s, h.worlds[j].s, k)
    decreases j
  {
    if i < j {
      FrozenForGood(h, i, j - 1, k);
      assert HappensAt(h, j - 1);
      FrozenOn(h.worlds[j - 1], h.events[j - 1], h.worlds[j], k);
    }
  }

  /** No daemon lives, and the row is CLAIMED or RUNNING with a finish time. */
  predicate Forgotten(s: State, k: Key) {
    s.mode == Down && k in s.runs && Active(s.runs[k].state) && s.runs[k].finishedAt.Some?
  }

  /** Such a row is CLAIMED or RUNNING for good: no recovery finds it, whatever jobs are
      configured, its process is not spawned again, and its fire gets no other attempt. */
  lemma ForgottenForGood(h: History, i: nat, j: nat, k: Key)
    requires Lived(h) && i <= j <= |h.events| && Forgotten(h.worlds[i].s, k) && k.attempt >= 1
    ensures SameFire(h.worlds[i].s, h.worlds[j].s, k) && k !in OpenRuns(h.worlds[j].s.runs)
    ensures h.worlds[j].s.mode.Recovering? ==> k !in h.worlds[j].s.mode.todo
  {
    EveryKeyFits(h, i, k);
    FrozenForGood(h, i, j, k);
  }

  // --- where such a row comes from -------------------------------------------------------

  /** Open by its state and finished by its time. */
  predicate Torn(s: State, k: Key) {
    k in s.runs && Open(s.runs[k].state) && s.runs[k].finishedAt.Some?
  }

  lemma TornStep(cfg: Config, s: State, a: Action, k: Key)
    requires Grounded(s) && Guard(cfg, s, a) && Fits(s, k) && Torn(Apply(cfg, s, a), k)
    ensures Torn(s, k)
  {
  }

  /** Closing tears a row exactly if it waits for a retry. */
  lemma TornByClosing(s: State, k: Key, now: int)
    requires k in s.runs && s.mode.Recovering?
    ensures Torn(Closed(s, k, now), k) <==> s.runs[k].state == Retrying
  {
  }

  ghost predicate ClosedWaiting(h: History, i: nat, k: Key)
    requires i < |h.events| && i < |h.worlds|
  {
    h.events[i].CloseRow? && h.events[i].key == k && k in h.worlds[i].s.runs && h.worlds[i].s.runs[k].state == Retrying
  }

  /** A row that is open and finished at once was closed while it waited for a retry. */
  lemma {:induction false} TornWasWaiting(h: History, i: nat, k: Key) returns (c: nat)
    requires Lived(h) && i <= |h.events| && Torn(h.worlds[i].s, k)
    ensures c < i && ClosedWaiting(h, c, k)
  {
    assert i > 0;
    assert HappensAt(h, i - 1);
    var s := h.worlds[i - 1].s;
    if Torn(s, k) {
      c := TornWasWaiting(h, i - 1, k);
    } else {
      c := i - 1;
      EveryKeyFits(h, i - 1, k);
      TornNow(h.worlds[i - 1], h.events[i - 1], h.worlds[i], k);
    }
  }

  lemma TornNow(w: World, e: Event, v: World, k: Key)
    requires Happens(w, e, v) && Fits(w.s, k) && !Torn(w.s, k) && Torn(v.s, k)
    ensures e.CloseRow? && e.key == k && k in w.s.runs && w.s.runs[k].state == Retrying
  {
    if e.Act? {
      assert Torn(Apply(e.cfg, w.s, e.a), k);
      TornStep(e.cfg, w.s, e.a, k);
    } else if e.CloseRow? && e.key == k {
      TornByClosing(w.s, k, e.now);
    }
  }

  // --- and where it is bound to come about --------------------------------------------------

  lemma Grow(h: History, e: Event, v: World) returns (more: History)
    requires Lived(h) && Happens(h.Now(), e, v)
    ensures Lived(more) && GoesOn(h, more) && more.Now() == v
    ensures more == History(h.events + [e], h.worlds + [v])
  {
    more := History(h.events + [e], h.worlds + [v]);
    forall i | 0 <= i < |more.events|
      ensures HappensAt(more, i)
    {
      assert i < |h.events| ==> HappensAt(h, i);
    }
  }

  lemma IsGrounded(h: History)
    requires Lived(h)
    ensures Grounded(h.Now().s)
  {
    var s := h.Now().s;
    forall k
      ensures Fits(s, k)
    {
      EveryKeyFits(h, |h.events|, k);
    }
    assert s.pc.Ended? || s.pc.Verdict? || s.pc.GoneLost? ==> Fits(s, s.pc.key) && Undecided(s.pc, s.pc.key);
    forall k | k in s.tasks
      ensures k in s.runs
    {
      assert Fits(s, k);
    }
  }

  lemma Take(h: History, a: Action) returns (more: History)
    requires Lived(h) && Guard(h.Now().cfg, h.Now().s, a)
    requires !a.Claim? && !a.SkipTriggered? && !TakesUp(a)
    ensures Grounded(h.Now().s)
    ensures Lived(more) && GoesOn(h, more) && more.Now() == World(h.Now().cfg, Apply(h.Now().cfg, h.Now().s, a))
  {
    IsGrounded(h);
    more := Grow(h, Act(h.Now().cfg, a), World(h.Now().cfg, Apply(h.Now().cfg, h.Now().s, a)));
  }

  /** Waiting for a retry, and finished. */
  predicate Shelved(s: State, k: Key) {
    k in s.runs && s.runs[k].state == Retrying && s.runs[k].finishedAt.Some?
  }

  /** A recovery that knows no job closes every row it finds. */
  lemma {:induction false} AllAreClosed(h: History, k: Key) returns (more: History)
    requires Lived(h) && h.Now().cfg == map[] && h.Now().s.pc == Idle && h.Now().s.mode.Recovering?
    requires forall x :: x in h.Now().s.mode.todo ==> x in h.Now().s.runs
    requires Shelved(h.Now().s, k)
    ensures Lived(more) && GoesOn(h, more) && Shelved(more.Now().s, k)
    ensures more.Now().s.pc == Idle && more.Now().s.mode == Up
    decreases |h.Now().s.mode.todo|
  {
    var w := h.Now();
    if w.s.mode.todo == {} {
      more := Take(h, RecoverDone);
    } else {
      var x :| x in w.s.mode.todo;
      var one := Grow(h, CloseRow(x, 0), World(w.cfg, Closed(w.s, x, 0)));
      more := AllAreClosed(one, k);
    }
  }

  /** A configuration under which the retry sweep takes the row up. */
  predicate Runnable(cfg: Config, k: Key) {
    k.job in cfg && cfg[k.job].name == k.job && cfg[k.job].enabled && cfg[k.job].concurrency >= 1
  }

  /** The daemon is up, and the retry is there for its sweep. */
  ghost predicate Offered(w: World, k: Key) {
    Shelved(w.s, k) && w.s.pc == Idle && w.s.mode == Up && k.job in w.cfg
  }

  lemma ResumeAsks(w: World, k: Key)
    requires Grounded(w.s) && Offered(w, k)
    ensures Guard(w.cfg, w.s, RequestResume(k.job, 0))
    ensures var v := World(w.cfg, Apply(w.cfg, w.s, RequestResume(k.job, 0)));
      Offered(v, k) && StateOf(v.s.clock, k.job).resumeRequested
  {
  }

  lemma ClearLifts(w: World, k: Key)
    requires Grounded(w.s) && Offered(w, k)
    requires StateOf(w.s.clock, k.job).IsQuarantined() && StateOf(w.s.clock, k.job).resumeRequested
    ensures Guard(w.cfg, w.s, ClearQuarantine(k.job, 0))
    ensures var v := World(w.cfg, Apply(w.cfg, w.s, ClearQuarantine(k.job, 0)));
      Offered(v, k) && !StateOf(v.s.clock, k.job).IsQuarantined()
  {
  }

  /** An operator lifts a quarantine, if there is one. */
  lemma IsReady(h: History, k: Key) returns (more: History)
    requires Lived(h) && Offered(h.Now(), k)
    ensures Lived(more) && GoesOn(h, more) && Offered(more.Now(), k) && !StateOf(more.Now().s.clock, k.job).IsQuarantined()
  {
    more := h;
    if StateOf(h.Now().s.clock, k.job).IsQuarantined() {
      IsGrounded(h);
      ResumeAsks(h.Now(), k);
      more := Take(h, RequestResume(k.job, 0));
    }
    if StateOf(more.Now().s.clock, k.job).IsQuarantined() {
      IsGrounded(more);
      ClearLifts(more.Now(), k);
      more := Take(more, ClearQuarantine(k.job, 0));
    }
  }

  lemma SweptNow(cfg: Config, s: State, k: Key)
    requires Grounded(s) && Guard(cfg, s, SweepRetry(k)) && Shelved(s, k)
    ensures Torn(Apply(cfg, s, SweepRetry(k)), k) && Active(Apply(cfg, s, SweepRetry(k)).runs[k].state)
  {
  }

  lemma Dies(h: History) returns (more: History)
    requires Lived(h)
    ensures Lived(more) && GoesOn(h, more) && more.Now().cfg == h.Now().cfg
    ensures more.Now().s.mode == Down && more.Now().s.pc == Idle && more.Now().s.runs == h.Now().s.runs
  {
    more := Take(h, Crash);
  }

  /** The sweep takes the retry up, and the daemon dies. */
  lemma SweptAndLost(h: History, k: Key) returns (more: History)
    requires Lived(h) && Offered(h.Now(), k) && !StateOf(h.Now().s.clock, k.job).IsQuarantined()
    ensures Lived(more) && GoesOn(h, more) && Forgotten(more.Now().s, k)
  {
    IsGrounded(h);
    SweptNow(h.Now().cfg, h.Now().s, k);
    var swept := Take(h, SweepRetry(k));
    more := Dies(swept);
  }

  /** The job is configured again. */
  lemma BroughtBack(h: History, k: Key, cfg: Config) returns (more: History)
    requires Lived(h) && Shelved(h.Now().s, k) && h.Now().s.pc == Idle && h.Now().s.mode == Up && Runnable(cfg, k)
    ensures Lived(more) && GoesOn(h, more) && Forgotten(more.Now().s, k)
  {
    var back := Grow(h, Configure(cfg), World(cfg, h.Now().s));
    var ready := IsReady(back, k);
    more := SweptAndLost(ready, k);
  }

  lemma BootsWithoutJobs(h: History) returns (more: History)
    requires Lived(h)
    ensures Lived(more) && GoesOn(h, more) && more.Now().s.runs == h.Now().s.runs
    ensures more.Now().cfg == map[] && more.Now().s.pc == Idle && more.Now().s.mode == Recovering(OpenRuns(h.Now().s.runs))
  {
    var dead := Dies(h);
    var emptied := Grow(dead, Configure(map[]), World(map[], dead.Now().s));
    more := Take(emptied, Boot);
  }

  ghost predicate CanBeForgotten(h: History, k: Key) {
    exists more :: Lived(more) && GoesOn(h, more) && Forgotten(more.Now().s, k)
  }

  lemma ShelvedCanBeForgotten(h: History, k: Key, cfg: Config)
    requires Lived(h) && Shelved(h.Now().s, k) && Runnable(cfg, k)
    ensures CanBeForgotten(h, k)
  {
    var booted := BootsWithoutJobs(h);
    var up := AllAreClosed(booted, k);
    var more := BroughtBack(up, k, cfg);
  }

  lemma ClosedIsFrozen(h: History, k: Key, now: int)
    requires Lived(h) && MayClose(h.Now(), k) && h.Now().s.runs[k].state != Retrying
    ensures Frozen(Closed(h.Now().s, k, now), k) && !Active(Closed(h.Now().s, k, now).runs[k].state)
  {
    EveryKeyFits(h, |h.events|, k);
  }

  /** Closing the row of a removed job leaves it settled if and only if it was not
      waiting for a retry: one that was can, under any configuration that runs its job
      again, end up CLAIMED where no recovery will ever find it. */
  lemma ForgottenIff(h: History, k: Key, now: int, cfg: Config)
    requires Lived(h) && MayClose(h.Now(), k) && k.attempt >= 1 && Runnable(cfg, k)
    ensures var w := h.Now();
      var after := History(h.events + [CloseRow(k, now)], h.worlds + [World(w.cfg, Closed(w.s, k, now))]);
      && Lived(after)
      && (CanBeForgotten(after, k) <==> w.s.runs[k].state == Retrying)
  {
    var w := h.Now();
    var after := Grow(h, CloseRow(k, now), World(w.cfg, Closed(w.s, k, now)));
    if w.s.runs[k].state == Retrying {
      ShelvedCanBeForgotten(after, k, cfg);
    } else {
      ClosedIsFrozen(h, k, now);
      forall more | Lived(more) && GoesOn(after, more)
        ensures !Forgotten(more.Now().s, k)
      {
        FrozenForGood(more, |after.events|, |more.events|, k);
      }
    }
  }
}
