/** Progress: wherever a run of the daemon has got to, it can go on, without another
    crash, until every row some daemon had in hand is final. */
module Progress {
  import opened Models
  import opened Tables
  import opened Lifecycle
  import opened Invariants
  import opened History
  import opened Theorems

  datatype Run = Run(acts: seq<Action>, states: seq<State>) {
    ghost function State(): State
      requires states != []
    {
      states[|states| - 1]
    }
  }

  ghost predicate Possible(cfg: Config, r: Run) {
    IsRun(cfg, r.acts, r.states)
  }

  /** The run goes on as `more`, and no crash strikes on the way. */
  ghost predicate GoesOn(r: Run, more: Run) {
    && r.acts <= more.acts && r.states <= more.states
    && forall i :: |r.acts| <= i < |more.acts| ==> more.acts[i] != Crash
  }

  lemma GoesOnFurther(a: Run, b: Run, c: Run)
    requires GoesOn(a, b) && GoesOn(b, c)
    ensures GoesOn(a, c)
  {
    forall i | |a.acts| <= i < |c.acts|
      ensures c.acts[i] != Crash
    {
      assert i < |b.acts| ==> c.acts[i] == b.acts[i];
    }
  }

  lemma Take(cfg: Config, r: Run, a: Action) returns (more: Run)
    requires Possible(cfg, r) && Guard(cfg, r.State(), a) && !Gated(a) && a != Crash
    ensures Grounded(r.State()) && CoreInv(cfg, r.State())
    ensures Possible(cfg, more) && GoesOn(r, more) && more.State() == Apply(cfg, r.State(), a)
  {
    RunIsGrounded(cfg, r.acts, r.states);
    RunGrows(cfg, r.acts, r.states, a);
    more := Run(r.acts + [a], r.states + [Apply(cfg, r.State(), a)]);
  }

  // --- a block comes to its end ---------------------------------------------------------

  /** The statements a block still owes. */
  function Owed(pc: Pc): nat {
    match pc
    case Idle => 0
    case Recovered(_) => 1
    case SkipNoted(_, _) => 1
    case Verdict(_, _, _) => 2
    case GoneLost(_) => 2
    case Ended(_, _, _) => 3
  }

  /** The tasks without the one whose last block is in progress. */
  ghost function Others(s: State): map<Key, Phase> {
    map k | k in s.tasks && !Ending(s.pc, k) :: s.tasks[k]
  }

  lemma KeyOfBlock(cfg: Config, s: State)
    requires CoreInv(cfg, s) && (s.pc.Verdict? || s.pc.GoneLost?)
    ensures s.pc.key.job in cfg
  {
    assert RowOk(cfg, s.runs, s.pc.key);
  }

  /** What a block does after the first of its two last statements. */
  function NextOf(cfg: Config, pc: Pc): Action
    requires (pc.Verdict? || pc.GoneLost?) && pc.key.job in cfg
  {
    var retried := if pc.Verdict? then EarnsRetry(cfg[pc.key.job], pc.key.attempt, pc.outcome)
                   else cfg[pc.key.job].EffectiveOnLost() == LostRetries;
    if retried then OweRetry(0) else OweHealth(0)
  }

  lemma NextIsAllowed(cfg: Config, s: State)
    requires (s.pc.Verdict? || s.pc.GoneLost?) && s.pc.key.job in cfg
    ensures Guard(cfg, s, NextOf(cfg, s.pc))
  {
  }

  /** A block whose row is closed has no task, unless it is that task's last. */
  lemma ClosedHasNoTask(cfg: Config, s: State)
    requires CoreInv(cfg, s) && (s.pc.Verdict? || s.pc.GoneLost?)
    ensures Ending(s.pc, s.pc.key) || s.pc.key !in s.tasks
  {
    assert s.pc.key in s.tasks ==> TaskOk(s, s.pc.key);
  }

  lemma NextSettles(cfg: Config, s: State, a: Action)
    requires Guard(cfg, s, a) && (a.OweRetry? || a.OweHealth?)
    requires Ending(s.pc, s.pc.key) || s.pc.key !in s.tasks
    ensures Owed(PcAfter(cfg, s, a)) < Owed(s.pc) && ModeAfter(cfg, s, a) == s.mode
    ensures TasksAfter(cfg, s, a) == Others(s)
    ensures forall k :: !Ending(PcAfter(cfg, s, a), k)
  {
  }

  lemma NothingEnding(s: State)
    requires forall k :: !Ending(s.pc, k)
    ensures Others(s) == s.tasks
  {
  }

  lemma BlockDecides(cfg: Config, r: Run) returns (more: Run)
    requires Possible(cfg, r) && (r.State().pc.Verdict? || r.State().pc.GoneLost?)
    ensures Possible(cfg, more) && GoesOn(r, more) && more.State().mode == r.State().mode
    ensures Owed(more.State().pc) < Owed(r.State().pc) && Others(more.State()) == Others(r.State())
  {
    RunIsGrounded(cfg, r.acts, r.states);
    KeyOfBlock(cfg, r.State());
    NextIsAllowed(cfg, r.State());
    var a := NextOf(cfg, r.State().pc);
    ClosedHasNoTask(cfg, r.State());
    NextSettles(cfg, r.State(), a);
    more := Take(cfg, r, a);
    NothingEnding(more.State());
  }

  lemma BlockSetsFire(cfg: Config, r: Run) returns (more: Run)
    requires Possible(cfg, r) && (r.State().pc.Ended? || r.State().pc.Recovered? || r.State().pc.SkipNoted?)
    ensures Possible(cfg, more) && GoesOn(r, more) && more.State().mode == r.State().mode
    ensures Owed(more.State().pc) < Owed(r.State().pc) && Others(more.State()) == Others(r.State())
  {
    more := Take(cfg, r, OweSetFire);
  }

  lemma {:induction false} BlockEnds(cfg: Config, r: Run) returns (more: Run)
    requires Possible(cfg, r)
    ensures Possible(cfg, more) && GoesOn(r, more)
    ensures more.State().pc == Idle && more.State().mode == r.State().mode && more.State().tasks == Others(r.State())
    decreases Owed(r.State().pc)
  {
    if r.State().pc == Idle {
      more := r;
      assert Others(r.State()) == r.State().tasks;
    } else {
      var one: Run;
      if r.State().pc.Verdict? || r.State().pc.GoneLost? {
        one := BlockDecides(cfg, r);
      } else {
        one := BlockSetsFire(cfg, r);
      }
      more := BlockEnds(cfg, one);
      GoesOnFurther(r, one, more);
    }
  }

  // --- recovery comes to its end --------------------------------------------------------

  lemma TodoIsKnown(cfg: Config, s: State, x: Key)
    requires CoreInv(cfg, s) && s.mode.Recovering? && x in s.mode.todo
    ensures x in s.runs && Open(s.runs[x].state)
  {
  }

  lemma RowIsTakenUp(cfg: Config, r: Run, x: Key) returns (more: Run)
    requires Possible(cfg, r) && r.State().pc == Idle && r.State().mode.Recovering? && x in r.State().mode.todo
    ensures Possible(cfg, more) && GoesOn(r, more) && more.State().mode == Recovering(r.State().mode.todo - {x})
  {
    RunIsGrounded(cfg, r.acts, r.states);
    TodoIsKnown(cfg, r.State(), x);
    var state := r.State().runs[x].state;
    more := Take(cfg, r, if state == Retrying then RecoverRetrying(x) else if state == Claimed then RecoverClaimed(x)
                         else RecoverLost(x, 0));
  }

  lemma {:induction false} RecoveryEnds(cfg: Config, r: Run) returns (more: Run)
    requires Possible(cfg, r) && r.State().pc == Idle && r.State().mode.Recovering?
    ensures Possible(cfg, more) && GoesOn(r, more) && more.State().pc == Idle && more.State().mode == Up
    decreases |r.State().mode.todo|
  {
    if r.State().mode.todo == {} {
      more := Take(cfg, r, RecoverDone);
    } else {
      var x :| x in r.State().mode.todo;
      var one := RowIsTakenUp(cfg, r, x);
      var two := BlockEnds(cfg, one);
      more := RecoveryEnds(cfg, two);
      GoesOnFurther(r, one, two);
      GoesOnFurther(r, two, more);
    }
  }

  lemma GetsUp(cfg: Config, r: Run) returns (more: Run)
    requires Possible(cfg, r) && r.State().pc == Idle
    ensures Possible(cfg, more) && GoesOn(r, more) && LoopIdle(more.State())
  {
    if r.State().mode == Down {
      var one := Take(cfg, r, Boot);
      more := RecoveryEnds(cfg, one);
      GoesOnFurther(r, one, more);
    } else if r.State().mode.Recovering? {
      more := RecoveryEnds(cfg, r);
    } else {
      more := r;
    }
  }

  // --- tasks come to their end ----------------------------------------------------------

  lemma TaskStarts(cfg: Config, r: Run, k: Key) returns (more: Run)
    requires Possible(cfg, r) && LoopIdle(r.State()) && k in r.State().tasks && r.State().tasks[k] == Launched
    ensures Possible(cfg, more) && GoesOn(r, more) && LoopIdle(more.State())
    ensures more.State().tasks == r.State().tasks[k := Marked]
  {
    RunIsGrounded(cfg, r.acts, r.states);
    assert TaskOk(r.State(), k);
    more := Take(cfg, r, StartTask(k));
  }

  /** A command that cannot be spawned ends the task as well as one that runs. */
  lemma TaskFinishes(cfg: Config, r: Run, k: Key) returns (more: Run)
    requires Possible(cfg, r) && LoopIdle(r.State()) && k in r.State().tasks && r.State().tasks[k] != Launched
    ensures Possible(cfg, more) && GoesOn(r, more) && more.State().mode == r.State().mode
    ensures more.State().pc == Ended(k, Failed, false) && more.State().tasks == r.State().tasks
  {
    RunIsGrounded(cfg, r.acts, r.states);
    assert TaskOk(r.State(), k);
    more := Take(cfg, r, FinishTask(k, Failed, 0));
  }

  lemma TaskEnds(cfg: Config, r: Run, k: Key) returns (more: Run)
    requires Possible(cfg, r) && LoopIdle(r.State()) && k in r.State().tasks
    ensures Possible(cfg, more) && GoesOn(r, more) && LoopIdle(more.State())
    ensures more.State().tasks.Keys == r.State().tasks.Keys - {k}
  {
    var one := r;
    if r.State().tasks[k] == Launched {
      one := TaskStarts(cfg, r, k);
    }
    assert one.State().tasks.Keys == r.State().tasks.Keys;
    var two := TaskFinishes(cfg, one, k);
    more := BlockEnds(cfg, two);
    GoesOnFurther(r, one, two);
    GoesOnFurther(r, two, more);
  }

  lemma {:induction false} TasksEnd(cfg: Config, r: Run) returns (more: Run)
    requires Possible(cfg, r) && LoopIdle(r.State())
    ensures Possible(cfg, more) && GoesOn(r, more) && LoopIdle(more.State()) && more.State().tasks == map[]
    decreases |r.State().tasks.Keys|
  {
    if r.State().tasks == map[] {
      more := r;
    } else {
      var k :| k in r.State().tasks.Keys;
      var one := TaskEnds(cfg, r, k);
      more := TasksEnd(cfg, one);
      GoesOnFurther(r, one, more);
    }
  }

  /** From every point of every run there is a way on, without a crash, to a point at
      which the daemon is alive and no row is CLAIMED or RUNNING: each of those rows has
      become final. */
  lemma EveryRowCanFinish(cfg: Config, acts: seq<Action>, states: seq<State>) returns (more: Run)
    requires IsRun(cfg, acts, states)
    ensures Possible(cfg, more) && GoesOn(Run(acts, states), more) && LoopIdle(more.State())
    ensures forall k :: k in more.State().runs ==> !Active(more.State().runs[k].state)
    ensures forall k :: k in states[|acts|].runs && Active(states[|acts|].runs[k].state) ==>
              k in more.State().runs && Final(more.State().runs[k].state)
  {
    var r := Run(acts, states);
    var one := BlockEnds(cfg, r);
    var two := GetsUp(cfg, one);
    more := TasksEnd(cfg, two);
    GoesOnFurther(r, one, two);
    GoesOnFurther(r, two, more);
    forall k | k in more.State().runs
      ensures !Active(more.State().runs[k].state)
    {
      MemoryAgreesWithStore(cfg, more.acts, more.states, |more.acts|, k);
    }
    forall k | k in states[|acts|].runs && Active(states[|acts|].runs[k].state)
      ensures k in more.State().runs && Final(more.State().runs[k].state)
    {
      ActiveBecomesFinal(cfg, more, |acts|, k);
    }
  }

  /** A row in hand does not go back to waiting. */
  lemma {:induction false} NeverWaitsAgain(cfg: Config, acts: seq<Action>, states: seq<State>, i: nat, j: nat, k: Key)
    requires IsRun(cfg, acts, states) && i <= j <= |acts| && k in states[i].runs && Rank(states[i].runs[k].state) >= 2
    ensures k in states[j].runs && Rank(states[j].runs[k].state) >= 2
    decreases j
  {
    if i < j {
      NeverWaitsAgain(cfg, acts, states, i, j - 1, k);
      RowsOnlyClimb(cfg, acts, states, j - 1, k);
    }
  }

  lemma ActiveBecomesFinal(cfg: Config, r: Run, i: nat, k: Key)
    requires Possible(cfg, r) && i <= |r.acts| && k in r.states[i].runs && Active(r.states[i].runs[k].state)
    requires forall l :: l in r.State().runs ==> !Active(r.State().runs[l].state)
    ensures k in r.State().runs && Final(r.State().runs[k].state)
  {
    NeverWaitsAgain(cfg, r.acts, r.states, i, |r.acts|, k);
    RowsAreSound(cfg, r.acts, r.states, |r.acts|);
    PastWaiting(cfg, r.State(), k);
  }

  lemma PastWaiting(cfg: Config, s: State, k: Key)
    requires RowsOk(cfg, s.runs) && k in s.runs && Rank(s.runs[k].state) >= 2 && !Active(s.runs[k].state)
    ensures Final(s.runs[k].state)
  {
    assert RowOk(cfg, s.runs, k);
  }
}
