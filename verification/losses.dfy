/** What every ended attempt is owed, its retry or its health update, and when a crash
    takes it away. */
module Losses {
  import opened Models
  import opened Tables
  import opened Lifecycle
  import opened Invariants
  import opened History
  import opened Theorems

  /** Does an attempt that ended this way get a retry? A LOST one asks `on_lost` only. */
  predicate Earns(job: Job, attempt: int, state: RunState) {
    EarnsRetry(job, attempt, state) || (state == Lost && job.EffectiveOnLost() == LostRetries)
  }

  ghost predicate IsCounted(health: seq<HealthEvent>, k: Key) {
    exists m :: 0 <= m < |health| && health[m].Counted? && health[m].key == k
  }

  /** The attempt has what it is owed. */
  ghost predicate Answered(cfg: Config, runs: Runs, health: seq<HealthEvent>, k: Key)
    requires k in runs && k.job in cfg
  {
    if Earns(cfg[k.job], k.attempt, runs[k].state) then k.Next() in runs else IsCounted(health, k)
  }

  /** An attempt that ended, and that no block in progress still answers for. */
  ghost predicate Closed(s: State, k: Key) {
    k in s.runs && Final(s.runs[k].state) && s.runs[k].state != Skipped && !Undecided(s.pc, k)
  }

  ghost predicate Complete(cfg: Config, s: State) {
    forall k :: Closed(s, k) && k.job in cfg ==> Answered(cfg, s.runs, s.health, k)
  }

  lemma CountedStays(health: seq<HealthEvent>, more: seq<HealthEvent>, k: Key)
    requires IsCounted(health, k)
    ensures IsCounted(health + more, k)
  {
    var m :| 0 <= m < |health| && health[m].Counted? && health[m].key == k;
    assert (health + more)[m] == health[m];
  }

  lemma HealthGrows(cfg: Config, s: State, a: Action, k: Key)
    requires Guard(cfg, s, a)
    ensures IsCounted(s.health, k) ==> IsCounted(HealthAfter(cfg, s, a), k)
    ensures IsCounted(HealthAfter(cfg, s, a), k) ==> IsCounted(s.health, k) || (a.OweHealth? && k == s.pc.key)
  {
    var health := HealthAfter(cfg, s, a);
    if IsCounted(s.health, k) {
      CountedStays(s.health, health[|s.health|..], k);
      assert health == s.health + health[|s.health|..];
    }
  }

  /** A row that is final stays as it is, and keeps its successor. */
  lemma FinalStays(cfg: Config, s: State, a: Action, k: Key)
    requires CoreInv(cfg, s) && Grounded(s) && Guard(cfg, s, a) && k in s.runs && Final(s.runs[k].state)
    ensures var runs := Put(s.runs, WriteOf(cfg, s, a));
      && k in runs && runs[k].state == s.runs[k].state
      && (k.Next() in s.runs ==> k.Next() in runs)
      && (k.Next() in runs ==> k.Next() in s.runs || (a.OweRetry? && k == s.pc.key))
  {
    StepWritesOneRow(cfg, s, a);
    FinalRowStays(s, cfg, WriteOf(cfg, s, a), k);
    if k.Next() !in s.runs && k.Next() in Put(s.runs, WriteOf(cfg, s, a)) {
      assert RowOk(cfg, s.runs, k) && k.Next().Previous() == k;
      NewAttempt(cfg, s, a, k.Next());
    }
  }

  /** A row that has just become final is a skip, or the block has only begun with it. */
  lemma NewlyFinal(cfg: Config, s: State, a: Action, k: Key)
    requires CoreInv(cfg, s) && Grounded(s) && Guard(cfg, s, a)
    requires var runs := Put(s.runs, WriteOf(cfg, s, a)); k in runs && Final(runs[k].state)
    requires k in s.runs ==> !Final(s.runs[k].state)
    ensures Put(s.runs, WriteOf(cfg, s, a))[k].state == Skipped || Undecided(PcAfter(cfg, s, a), k)
  {
  }

  /** A block stops answering for an attempt only by giving it what it is owed, unless
      it is cut off. */
  lemma BlockAnswers(cfg: Config, s: State, a: Action, k: Key)
    requires CoreInv(cfg, s) && Grounded(s) && Guard(cfg, s, a) && a != Crash
    requires Undecided(s.pc, k) && !Undecided(PcAfter(cfg, s, a), k)
    ensures k in s.runs && k.job in cfg
    ensures if Earns(cfg[k.job], k.attempt, s.runs[k].state) then a.OweRetry? && k == s.pc.key
            else a.OweHealth? && k == s.pc.key
  {
  }

  lemma AnsweredOn(cfg: Config, s: State, a: Action, k: Key)
    requires CoreInv(cfg, s) && Grounded(s) && Guard(cfg, s, a) && a != Crash
    requires Closed(Apply(cfg, s, a), k) && k.job in cfg && (Closed(s, k) ==> Answered(cfg, s.runs, s.health, k))
    ensures Answered(cfg, Apply(cfg, s, a).runs, Apply(cfg, s, a).health, k)
  {
    if k in s.runs && Final(s.runs[k].state) {
      FinalStays(cfg, s, a, k);
      HealthGrows(cfg, s, a, k);
      if Undecided(s.pc, k) {
        BlockAnswers(cfg, s, a, k);
        JustAnswered(cfg, s, a, k);
      }
    } else {
      NewlyFinal(cfg, s, a, k);
    }
  }

  lemma JustAnswered(cfg: Config, s: State, a: Action, k: Key)
    requires Grounded(s) && Guard(cfg, s, a) && (s.pc.Verdict? || s.pc.GoneLost?) && k == s.pc.key
    ensures a.OweRetry? ==> k.Next() in Put(s.runs, WriteOf(cfg, s, a))
    ensures a.OweHealth? ==> IsCounted(HealthAfter(cfg, s, a), k)
  {
    if a.OweHealth? {
      assert HealthAfter(cfg, s, a)[|s.health|].key == k;
    }
  }

  /** Every step but a crash keeps the account complete. */
  lemma CompleteKept(cfg: Config, s: State, a: Action)
    requires CoreInv(cfg, s) && Grounded(s) && Guard(cfg, s, a) && a != Crash && Complete(cfg, s)
    ensures Complete(cfg, Apply(cfg, s, a))
  {
    forall k | Closed(Apply(cfg, s, a), k) && k.job in cfg
      ensures Answered(cfg, Apply(cfg, s, a).runs, Apply(cfg, s, a).health, k)
    {
      AnsweredOn(cfg, s, a, k);
    }
  }

  /** An attempt that has gone without what it is owed. */
  ghost predicate Missing(cfg: Config, s: State, k: Key) {
    Closed(s, k) && k.job in cfg && !Answered(cfg, s.runs, s.health, k)
  }

  /** It never gets it: only the block that closed the attempt could have given it. */
  lemma MissingStays(cfg: Config, s: State, a: Action, k: Key)
    requires CoreInv(cfg, s) && Grounded(s) && Guard(cfg, s, a) && Missing(cfg, s, k)
    ensures Missing(cfg, Apply(cfg, s, a), k)
  {
    FinalStays(cfg, s, a, k);
    HealthGrows(cfg, s, a, k);
    if Undecided(PcAfter(cfg, s, a), k) {
      NewlyUndecided(cfg, s, a, k);
    }
  }

  /** Does a crash strike here between an outcome and what the attempt is owed? */
  ghost predicate CutsBlock(s: State, a: Action) {
    a == Crash && exists k :: Undecided(s.pc, k)
  }

  lemma CountedIsSettled(s: State, k: Key)
    requires HealthOk(s)
    ensures IsCounted(s.health, k) ==> Settled(s, k)
  {
    if IsCounted(s.health, k) {
      var m :| 0 <= m < |s.health| && s.health[m].Counted? && s.health[m].key == k;
      assert CountedOk(s, s.health[m]);
    }
  }

  /** The attempt a crash cuts off goes without. */
  lemma CutLoses(cfg: Config, s: State, k: Key)
    requires CoreInv(cfg, s) && HealthOk(s) && Undecided(s.pc, k)
    ensures Missing(cfg, Apply(cfg, s, Crash), k)
  {
    assert RowOk(cfg, s.runs, k);
    CountedIsSettled(s, k);
  }

  lemma CrashElsewhere(cfg: Config, s: State)
    requires Grounded(s) && Complete(cfg, s) && forall k :: !Undecided(s.pc, k)
    ensures Complete(cfg, Apply(cfg, s, Crash))
  {
    var t := Apply(cfg, s, Crash);
    forall k | Closed(t, k) && k.job in cfg
      ensures Answered(cfg, t.runs, t.health, k)
    {
      assert Closed(s, k);
    }
  }

  lemma CompleteStep(cfg: Config, s: State, a: Action)
    requires CoreInv(cfg, s) && HealthOk(s) && Grounded(s) && Guard(cfg, s, a)
    ensures Complete(cfg, Apply(cfg, s, a)) <==> Complete(cfg, s) && !CutsBlock(s, a)
  {
    if CutsBlock(s, a) {
      var k :| Undecided(s.pc, k);
      CutLoses(cfg, s, k);
    } else if !Complete(cfg, s) {
      var k :| Closed(s, k) && k.job in cfg && !Answered(cfg, s.runs, s.health, k);
      MissingStays(cfg, s, a, k);
    } else if a == Crash {
      CrashElsewhere(cfg, s);
    } else {
      CompleteKept(cfg, s, a);
    }
  }

  /** No crash among the first `n` steps has cut a block off. */
  ghost predicate NeverCut(acts: seq<Action>, states: seq<State>, n: nat)
    requires n <= |acts| && n <= |states|
  {
    forall m :: 0 <= m < n ==> !CutsBlock(states[m], acts[m])
  }

  lemma NeverCutNext(acts: seq<Action>, states: seq<State>, n: nat)
    requires n < |acts| && n < |states|
    ensures NeverCut(acts, states, n + 1) <==> NeverCut(acts, states, n) && !CutsBlock(states[n], acts[n])
  {
  }

  /** Over any run: every attempt that ended was given its retry, or else its fire was
      counted by the breaker, if and only if no crash has struck between an outcome and
      that statement. */
  lemma {:induction false} CompleteIff(cfg: Config, acts: seq<Action>, states: seq<State>, i: nat)
    requires IsRun(cfg, acts, states) && i <= |acts|
    ensures Complete(cfg, states[i]) <==> NeverCut(acts, states, i)
  {
    if i > 0 {
      CompleteIff(cfg, acts, states, i - 1);
      NeverCutNext(acts, states, i - 1);
      CompleteAt(cfg, acts, states, i - 1);
    }
  }

  lemma CompleteAt(cfg: Config, acts: seq<Action>, states: seq<State>, i: nat)
    requires IsRun(cfg, acts, states) && i < |acts|
    ensures Complete(cfg, states[i + 1]) <==> Complete(cfg, states[i]) && !CutsBlock(states[i], acts[i])
  {
    EveryStateIsSound(cfg, acts, states, i);
    assert StepAt(cfg, acts, states, i);
    CompleteStep(cfg, states[i], acts[i]);
  }

  /** Without such a crash the retries are those the policies grant, no fewer: a failed
      or timed-out attempt up to `max`, or a lost one under `on_lost = "retry"`, has its
      successor; and every other fire that ended is counted once. */
  lemma NothingIsMissed(cfg: Config, acts: seq<Action>, states: seq<State>, i: nat, k: Key)
    requires IsRun(cfg, acts, states) && i <= |acts| && Closed(states[i], k)
    requires NeverCut(acts, states, i)
    ensures k.job in cfg
    ensures var job, state := cfg[k.job], states[i].runs[k].state;
      k.Next() in states[i].runs <==>
        || ((state == Failed || state == TimedOut) && k.attempt <= job.retries.max)
        || (state == Lost && (job.onLost == Some(LostRetries) || (job.onLost.None? && job.idempotent)))
    ensures IsCounted(states[i].health, k) <==> k.Next() !in states[i].runs
  {
    CompleteIff(cfg, acts, states, i);
    EveryStateIsSound(cfg, acts, states, i);
    assert RowOk(cfg, states[i].runs, k);
    NotBoth(cfg, states[i], k);
  }

  /** No attempt is both retried and counted. */
  lemma NotBoth(cfg: Config, s: State, k: Key)
    requires HealthOk(s)
    ensures !(k.Next() in s.runs && IsCounted(s.health, k))
  {
    CountedIsSettled(s, k);
  }
}
