/** What every step of the lifecycle keeps. */
module Invariants {
  import opened Models
  import opened Tables
  import opened Gate
  import opened Lifecycle

  // --- rows ---------------------------------------------------------------

  /** A row's own consistency, and the chain: an attempt above the first follows
      an attempt that failed, timed out or was lost. */
  ghost predicate RowOk(cfg: Config, runs: Runs, k: Key) {
    && k in runs && k.job in cfg && k.attempt >= 1
    && (Open(runs[k].state) || Final(runs[k].state))
    && (runs[k].finishedAt.None? <==> Open(runs[k].state))
    && (runs[k].state == Skipped ==> k.attempt == 1)
    && (k.attempt > 1 ==> k.Previous() in runs && Failure(runs[k.Previous()].state))
  }

  ghost predicate RowsOk(cfg: Config, runs: Runs) {
    forall k :: k in runs ==> RowOk(cfg, runs, k)
  }

  // --- the block in progress ------------------------------------------------

  ghost predicate PcOk(cfg: Config, s: State) {
    match s.pc
    case Idle => true
    case Ended(k, o, rec) => PcKeyOk(cfg, s, k, o) && Outcome(o) && (rec <==> s.mode.Recovering?)
    case Verdict(k, o, rec) => PcKeyOk(cfg, s, k, o) && Outcome(o) && (rec <==> s.mode.Recovering?)
    case GoneLost(k) => PcKeyOk(cfg, s, k, Lost) && s.mode.Recovering?
    case Recovered(k) => k in s.runs && s.mode.Recovering?
    case SkipNoted(j, _) => j in cfg && s.mode == Up
  }

  ghost predicate PcKeyOk(cfg: Config, s: State, k: Key, o: RunState) {
    && k in s.runs && s.runs[k].state == o && k.Next() !in s.runs && (s.mode != Down)
  }

  // --- tasks -------------------------------------------------------------------

  /** Is `k` the task whose last block is in progress? */
  predicate Ending(pc: Pc, k: Key) {
    (pc.Ended? || pc.Verdict?) && !pc.recovering && pc.key == k
  }

  predicate PhaseFits(phase: Phase, state: RunState) {
    match phase
    case Launched => state == Claimed
    case Marked => state == Running
    case Spawned => state == Running
  }

  ghost predicate TaskOk(s: State, k: Key) {
    && k in s.runs && k in s.tasks
    && (if Ending(s.pc, k) then s.tasks[k] != Launched else PhaseFits(s.tasks[k], s.runs[k].state))
  }

  /** A row that claims to be in hand is in hand. */
  ghost predicate InHand(s: State, k: Key) {
    match s.mode
    case Down => true
    case Recovering(todo) => k in s.tasks || k in todo
    case _ => k in s.tasks
  }

  ghost predicate TasksOk(s: State) {
    && (forall k :: k in s.tasks ==> TaskOk(s, k))
    && (forall k :: k in s.runs && Active(s.runs[k].state) ==> InHand(s, k))
    && (forall k :: Ending(s.pc, k) ==> k in s.tasks)
    && (s.mode == Down ==> s.tasks == map[] && s.pc == Idle)
    && (s.mode.Recovering? ==>
          && (forall k :: k in s.tasks ==> s.tasks[k] == Launched && k !in s.mode.todo)
          && (forall k :: k in s.mode.todo ==> k in s.runs && Open(s.runs[k].state)))
  }

  // --- spawns -------------------------------------------------------------------

  ghost predicate SpawnOk(s: State, k: Key) {
    && s.spawns[k] <= 1
    && (s.spawns[k] > 0 ==> k in s.runs && (s.runs[k].state.Running? || Outcome(s.runs[k].state) || s.runs[k].state.Lost?))
    && (k in s.runs && (s.runs[k].state.Succeeded? || s.runs[k].state.TimedOut?) ==> s.spawns[k] == 1)
    && (k in s.tasks && !Ending(s.pc, k) ==> (s.spawns[k] == 1 <==> s.tasks[k] == Spawned))
  }

  ghost predicate SpawnsOk(s: State) {
    forall k :: SpawnOk(s, k)
  }

  ghost predicate CoreInv(cfg: Config, s: State) {
    && RowsOk(cfg, s.runs)
    && PcOk(cfg, s)
    && TasksOk(s)
    && SpawnsOk(s)
  }

  // --- one write per step -------------------------------------------------------

  /** The shape of the one write a step makes: a first attempt that is claimed or
      skipped, a retry right above the attempt the block just closed, or a move of
      an open row along the transition table (or a pid noted on a running row). */
  ghost predicate Shape(cfg: Config, s: State, w: Write) {
    match w
    case Nothing => true
    case Insert(k, row) =>
      && k !in s.runs && k.job in cfg && k.attempt >= 1
      && (row.finishedAt.None? <==> Open(row.state))
      && (k.attempt == 1 ==> (row.state.Claimed? || row.state.Skipped?) && s.pc == Idle)
      && (k.attempt > 1 ==>
            && row.state == Retrying && Undecided(s.pc, k.Previous())
            && k.Previous() in s.runs && Failure(s.runs[k.Previous()].state))
    case Update(k, row) =>
      && k in s.runs && s.pc == Idle && Open(s.runs[k].state)
      && (row.state == s.runs[k].state == Running || Allowed(s.runs[k].state, row.state))
      && (Active(row.state) || Outcome(row.state) || row.state.Lost?)
      && (row.finishedAt.None? <==> Open(row.state))
  }

  lemma CoreInvGrounds(cfg: Config, s: State)
    requires CoreInv(cfg, s)
    ensures Grounded(s)
  {
    assert forall k :: k in s.tasks ==> TaskOk(s, k);
  }

  lemma ShapeOfInsert(cfg: Config, s: State, a: Action)
    requires CoreInv(cfg, s) && Grounded(s) && Guard(cfg, s, a)
    requires WriteOf(cfg, s, a).Insert?
    ensures Shape(cfg, s, WriteOf(cfg, s, a))
  {
    if a.OweRetry? {
      assert RowOk(cfg, s.runs, s.pc.key);
    }
  }

  /** A row a task writes is in the state its phase says. */
  lemma ShapeByTask(cfg: Config, s: State, a: Action)
    requires CoreInv(cfg, s) && Grounded(s) && Guard(cfg, s, a)
    requires a.StartTask? || a.RecordPid? || a.FinishTask?
    ensures WriteOf(cfg, s, a).Update? && Shape(cfg, s, WriteOf(cfg, s, a))
  {
    assert TaskOk(s, a.key) && RowOk(cfg, s.runs, a.key);
  }

  lemma ShapeOfUpdate(cfg: Config, s: State, a: Action)
    requires CoreInv(cfg, s) && Grounded(s) && Guard(cfg, s, a)
    requires a.RecoverSentinel? || a.RecoverLost? || a.SweepRetry?
    ensures WriteOf(cfg, s, a).Update? && Shape(cfg, s, WriteOf(cfg, s, a))
  {
    assert RowOk(cfg, s.runs, a.key);
  }

  /** Every step writes at most one row, and only in one of these ways: the
      transition the block asks for is always one `transition_to` allows. */
  lemma StepWritesOneRow(cfg: Config, s: State, a: Action)
    requires CoreInv(cfg, s) && Grounded(s) && Guard(cfg, s, a)
    ensures Shape(cfg, s, WriteOf(cfg, s, a))
  {
    if WriteOf(cfg, s, a).Insert? {
      ShapeOfInsert(cfg, s, a);
    } else if a.StartTask? || a.RecordPid? || a.FinishTask? {
      ShapeByTask(cfg, s, a);
    } else if a.RecoverSentinel? || a.RecoverLost? || a.SweepRetry? {
      ShapeOfUpdate(cfg, s, a);
    }
  }

  // --- each invariant, step by step ------------------------------------------------

  lemma RowsKept(cfg: Config, s: State, w: Write)
    requires RowsOk(cfg, s.runs) && Shape(cfg, s, w)
    ensures RowsOk(cfg, Put(s.runs, w))
  {
    var runs := Put(s.runs, w);
    forall k | k in runs
      ensures RowOk(cfg, runs, k)
    {
      if k in s.runs {
        assert RowOk(cfg, s.runs, k);
        if k.attempt > 1 {
          assert RowOk(cfg, s.runs, k.Previous());
        }
      }
    }
  }

  lemma PcKept(cfg: Config, s: State, a: Action)
    requires CoreInv(cfg, s) && Grounded(s) && Guard(cfg, s, a)
    ensures PcOk(cfg, Apply(cfg, s, a))
  {
    var t := Apply(cfg, s, a);
    match a
    case FinishTask(k, o, _) =>
      assert TaskOk(s, k);
      NothingFollowsOpen(cfg, s, k);
    case RecoverSentinel(k, o, _) => NothingFollowsOpen(cfg, s, k);
    case RecoverLost(k, _) => NothingFollowsOpen(cfg, s, k);
    case OweSetFire =>
    case OweRetry(_) =>
    case OweHealth(_) =>
    case _ =>
  }

  /** An open row is its fire's newest attempt. */
  lemma NothingFollowsOpen(cfg: Config, s: State, k: Key)
    requires RowsOk(cfg, s.runs) && k in s.runs && Open(s.runs[k].state)
    ensures k.Next() !in s.runs
  {
    assert k.Next() in s.runs ==> RowOk(cfg, s.runs, k.Next()) && k.Next().Previous() == k && RowOk(cfg, s.runs, k);
  }

  /** What is known about one key when a step is taken. */
  ghost predicate Known(cfg: Config, s: State, a: Action, k: Key) {
    && Grounded(s) && Guard(cfg, s, a) && PcOk(cfg, s) && Shape(cfg, s, WriteOf(cfg, s, a))
    && (k in s.runs ==> RowOk(cfg, s.runs, k) && (Active(s.runs[k].state) ==> InHand(s, k)))
    && (k in s.tasks ==> TaskOk(s, k) && (s.mode.Recovering? ==> s.tasks[k] == Launched && k !in s.mode.todo))
    && (Ending(s.pc, k) ==> k in s.tasks)
    && (s.mode == Down ==> k !in s.tasks && s.pc == Idle)
    && SpawnOk(s, k)
  }

  lemma KnownOf(cfg: Config, s: State, a: Action, k: Key)
    requires CoreInv(cfg, s) && Grounded(s) && Guard(cfg, s, a)
    ensures Known(cfg, s, a, k)
  {
    StepWritesOneRow(cfg, s, a);
    assert k in s.runs ==> RowOk(cfg, s.runs, k);
    assert k in s.runs && Active(s.runs[k].state) ==> InHand(s, k);
    assert k in s.tasks ==> TaskOk(s, k);
    assert SpawnOk(s, k);
  }

  /** The invariant of one key: its task, its row and its spawns agree. */
  ghost predicate KeyOk(s: State, k: Key) {
    && (k in s.tasks ==> TaskOk(s, k))
    && (k in s.runs && Active(s.runs[k].state) ==> InHand(s, k))
    && (Ending(s.pc, k) ==> k in s.tasks)
    && (s.mode == Down ==> k !in s.tasks)
    && (s.mode.Recovering? && k in s.tasks ==> s.tasks[k] == Launched && k !in s.mode.todo)
    && SpawnOk(s, k)
  }

  /** The kinds of steps that touch a row: those of a block that has already begun,
      those that take a row in hand during recovery, those of a task, those of the
      tick loop. */
  predicate InBlock(a: Action) { a.OweSetFire? || a.OweRetry? || a.OweHealth? }

  predicate InRecovery(a: Action) { a.RecoverClaimed? || a.RecoverSentinel? || a.RecoverLost? }

  predicate InTask(a: Action) { a.StartTask? || a.SpawnTask? || a.RecordPid? }

  predicate InTick(a: Action) { a.Claim? || a.SkipTriggered? || a.SweepRetry? }

  lemma KeyKeptInBlock(cfg: Config, s: State, a: Action, k: Key)
    requires Known(cfg, s, a, k) && InBlock(a)
    ensures KeyOk(Apply(cfg, s, a), k)
  {
  }

  lemma KeyKeptRecovering(cfg: Config, s: State, a: Action, k: Key)
    requires Known(cfg, s, a, k) && InRecovery(a)
    ensures KeyOk(Apply(cfg, s, a), k)
  {
  }

  lemma KeyKeptByFinish(cfg: Config, s: State, a: Action, k: Key)
    requires Known(cfg, s, a, k) && a.FinishTask?
    ensures KeyOk(Apply(cfg, s, a), k)
  {
  }

  lemma KeyKeptByTask(cfg: Config, s: State, a: Action, k: Key)
    requires Known(cfg, s, a, k) && InTask(a)
    ensures KeyOk(Apply(cfg, s, a), k)
  {
  }

  lemma KeyKeptByTick(cfg: Config, s: State, a: Action, k: Key)
    requires Known(cfg, s, a, k) && InTick(a)
    ensures KeyOk(Apply(cfg, s, a), k)
  {
  }

  /** Steps that touch no row and launch no task. */
  lemma KeyKeptOtherwise(cfg: Config, s: State, a: Action, k: Key)
    requires Known(cfg, s, a, k)
    requires !InBlock(a) && !InRecovery(a) && !InTask(a) && !InTick(a) && !a.FinishTask?
    ensures KeyOk(Apply(cfg, s, a), k)
  {
  }

  lemma KeyKept(cfg: Config, s: State, a: Action, k: Key)
    requires CoreInv(cfg, s) && Grounded(s) && Guard(cfg, s, a)
    ensures KeyOk(Apply(cfg, s, a), k)
  {
    KnownOf(cfg, s, a, k);
    if InBlock(a) {
      KeyKeptInBlock(cfg, s, a, k);
    } else if InRecovery(a) {
      KeyKeptRecovering(cfg, s, a, k);
    } else if InTask(a) {
      KeyKeptByTask(cfg, s, a, k);
    } else if InTick(a) {
      KeyKeptByTick(cfg, s, a, k);
    } else if a.FinishTask? {
      KeyKeptByFinish(cfg, s, a, k);
    } else {
      KeyKeptOtherwise(cfg, s, a, k);
    }
  }

  lemma TodoKept(cfg: Config, s: State, a: Action)
    requires CoreInv(cfg, s) && Grounded(s) && Guard(cfg, s, a)
    ensures var t := Apply(cfg, s, a);
      && (t.mode == Down ==> t.pc == Idle)
      && (t.mode.Recovering? ==> forall k :: k in t.mode.todo ==> k in t.runs && Open(t.runs[k].state))
  {
    var t := Apply(cfg, s, a);
    StepWritesOneRow(cfg, s, a);
    if t.mode.Recovering? {
      forall k | k in t.mode.todo
        ensures k in t.runs && Open(t.runs[k].state)
      {
        assert k in s.runs && RowOk(cfg, s.runs, k);
      }
    }
  }

  lemma CoreKept(cfg: Config, s: State, a: Action)
    requires CoreInv(cfg, s) && Grounded(s) && Guard(cfg, s, a)
    ensures CoreInv(cfg, Apply(cfg, s, a))
  {
    var t := Apply(cfg, s, a);
    StepWritesOneRow(cfg, s, a);
    RowsKept(cfg, s, WriteOf(cfg, s, a));
    PcKept(cfg, s, a);
    TodoKept(cfg, s, a);
    forall k
      ensures KeyOk(t, k)
    {
      KeyKept(cfg, s, a, k);
    }
    KeysOkMeans(cfg, t);
  }

  lemma KeysOkMeans(cfg: Config, t: State)
    requires forall k :: KeyOk(t, k)
    requires t.mode == Down ==> t.pc == Idle
    requires t.mode.Recovering? ==> forall k :: k in t.mode.todo ==> k in t.runs && Open(t.runs[k].state)
    ensures TasksOk(t) && SpawnsOk(t)
  {
    assert forall k :: k in t.tasks ==> KeyOk(t, k);
    assert forall k :: k in t.runs ==> KeyOk(t, k);
    assert forall k :: SpawnOk(t, k) <== KeyOk(t, k);
    assert forall k :: Ending(t.pc, k) ==> KeyOk(t, k);
    if t.mode == Down {
      assert forall k :: k in t.tasks ==> KeyOk(t, k) && k !in t.tasks;
      assert t.tasks == map[];
    }
  }
}
