/** What the lifecycle keeps about a fire's whole history: its retry chain, the
    health updates it caused, and the upstream run that triggered it. */
module History {
  import opened Models
  import opened Tables
  import opened Gate
  import opened Lifecycle
  import opened Invariants

  // --- settled rows -----------------------------------------------------------

  /** The last word on a fire: a final row with no later attempt, and no block
      that still owes one. */
  ghost predicate Settled(s: State, k: Key) {
    && k in s.runs && Final(s.runs[k].state)
    && k.Next() !in s.runs && !Undecided(s.pc, k)
  }

  /** A block only becomes responsible for a row it has just closed. */
  lemma NewlyUndecided(cfg: Config, s: State, a: Action, k: Key)
    requires CoreInv(cfg, s) && Grounded(s) && Guard(cfg, s, a)
    requires Undecided(PcAfter(cfg, s, a), k) && !Undecided(s.pc, k)
    ensures k in s.runs && Open(s.runs[k].state)
  {
    StepWritesOneRow(cfg, s, a);
  }

  lemma SettledRowKept(s: State, cfg: Config, w: Write, k: Key)
    requires Shape(cfg, s, w) && Settled(s, k) && k.attempt >= 1
    ensures var runs := Put(s.runs, w); k in runs && runs[k] == s.runs[k] && k.Next() !in runs
  {
    assert k.Next().Previous() == k;
  }

  /** No statement touches a final row. */
  lemma FinalRowStays(s: State, cfg: Config, w: Write, k: Key)
    requires Shape(cfg, s, w) && k in s.runs && Final(s.runs[k].state)
    ensures var runs := Put(s.runs, w);
      && k in runs && runs[k] == s.runs[k]
      && (k.Next() in s.runs ==> k.Next() in runs)
  {
  }

  /** A settled row is never touched again, and its fire gets no other attempt. */
  lemma SettledKept(cfg: Config, s: State, a: Action, k: Key)
    requires CoreInv(cfg, s) && Grounded(s) && Guard(cfg, s, a) && Settled(s, k)
    ensures var t := Apply(cfg, s, a); Settled(t, k) && t.runs[k] == s.runs[k]
  {
    StepWritesOneRow(cfg, s, a);
    assert RowOk(cfg, s.runs, k);
    SettledRowKept(s, cfg, WriteOf(cfg, s, a), k);
    if Undecided(PcAfter(cfg, s, a), k) {
      NewlyUndecided(cfg, s, a, k);
    }
  }

  // --- retry chains -----------------------------------------------------------

  /** Below any attempt of a fire are all the earlier ones, each a failure. */
  lemma {:induction false} ChainBelow(cfg: Config, runs: Runs, k: Key, attempt: int)
    requires RowsOk(cfg, runs) && k in runs && 1 <= attempt < k.attempt
    ensures Key(k.job, k.fire, attempt) in runs && Failure(runs[Key(k.job, k.fire, attempt)].state)
    decreases k.attempt
  {
    assert RowOk(cfg, runs, k);
    if attempt < k.attempt - 1 {
      ChainBelow(cfg, runs, k.Previous(), attempt);
    }
  }

  predicate SameFire(k: Key, l: Key) { k.job == l.job && k.fire == l.fire }

  lemma NewestIsHighest(cfg: Config, runs: Runs, k: Key, l: Key)
    requires RowsOk(cfg, runs) && k in runs && l in runs && SameFire(k, l)
    requires k.Next() !in runs
    ensures l.attempt <= k.attempt
  {
    assert RowOk(cfg, runs, k);
    assert l.attempt == k.attempt + 1 ==> l == k.Next();
    if l.attempt > k.attempt + 1 {
      ChainBelow(cfg, runs, l, k.attempt + 1);
    }
  }

  /** A fire has one newest attempt. */
  lemma NewestIsUnique(cfg: Config, runs: Runs, k: Key, l: Key)
    requires RowsOk(cfg, runs) && k in runs && l in runs && SameFire(k, l)
    requires k.Next() !in runs
    ensures l.attempt <= k.attempt
    ensures l.Next() !in runs ==> l == k
  {
    NewestIsHighest(cfg, runs, k, l);
    if l.Next() !in runs {
      NewestIsHighest(cfg, runs, l, k);
    }
  }

  /** How many attempts below `k` were lost in a crash. */
  ghost function LostBelow(runs: Runs, k: Key): nat
    decreases k.attempt
  {
    if k.attempt <= 1 then 0
    else (if k.Previous() in runs && runs[k.Previous()].state == Lost then 1 else 0) + LostBelow(runs, k.Previous())
  }

  lemma {:induction false} LostBelowGrows(runs: Runs, after: Runs, k: Key)
    requires forall l :: l in runs && runs[l].state == Lost ==> l in after && after[l].state == Lost
    ensures LostBelow(runs, k) <= LostBelow(after, k)
    decreases k.attempt
  {
    if k.attempt > 1 {
      LostBelowGrows(runs, after, k.Previous());
    }
  }

  ghost predicate BoundOk(cfg: Config, runs: Runs, k: Key) {
    k.job in cfg && k.attempt <= cfg[k.job].retries.Budget() + LostBelow(runs, k)
  }

  ghost predicate BoundsOk(cfg: Config, s: State) {
    forall k :: k in s.runs ==> BoundOk(cfg, s.runs, k)
  }

  /** A block only grants a retry that the policy, or a loss, pays for. */
  lemma RetryIsPaidFor(cfg: Config, s: State, a: Action)
    requires CoreInv(cfg, s) && Grounded(s) && Guard(cfg, s, a) && a.OweRetry?
    requires BoundOk(cfg, s.runs, s.pc.key)
    ensures BoundOk(cfg, s.runs, s.pc.key.Next())
  {
    assert RowOk(cfg, s.runs, s.pc.key) && s.pc.key.Next().Previous() == s.pc.key;
  }

  /** Every attempt a step creates is a first one or the retry the block grants. */
  lemma NewAttempt(cfg: Config, s: State, a: Action, k: Key)
    requires CoreInv(cfg, s) && Grounded(s) && Guard(cfg, s, a)
    requires k !in s.runs && k in Put(s.runs, WriteOf(cfg, s, a))
    ensures k.job in cfg && (k.attempt == 1 || (a.OweRetry? && k == s.pc.key.Next() && s.pc.key in s.runs))
  {
    StepWritesOneRow(cfg, s, a);
  }

  lemma LostStaysLost(cfg: Config, s: State, a: Action)
    requires CoreInv(cfg, s) && Grounded(s) && Guard(cfg, s, a)
    ensures var runs := Put(s.runs, WriteOf(cfg, s, a));
      forall l :: l in s.runs && s.runs[l].state == Lost ==> l in runs && runs[l].state == Lost
  {
    StepWritesOneRow(cfg, s, a);
  }

  lemma BoundKept(cfg: Config, s: State, a: Action, k: Key)
    requires CoreInv(cfg, s) && BoundsOk(cfg, s) && Grounded(s) && Guard(cfg, s, a)
    requires k in Put(s.runs, WriteOf(cfg, s, a))
    ensures BoundOk(cfg, Put(s.runs, WriteOf(cfg, s, a)), k)
  {
    LostStaysLost(cfg, s, a);
    LostBelowGrows(s.runs, Put(s.runs, WriteOf(cfg, s, a)), k);
    if k in s.runs {
      assert BoundOk(cfg, s.runs, k);
    } else {
      NewAttempt(cfg, s, a, k);
      if k.attempt > 1 {
        assert BoundOk(cfg, s.runs, s.pc.key);
        RetryIsPaidFor(cfg, s, a);
      }
    }
  }

  // --- health counts fires ---------------------------------------------------------

  ghost predicate CountedOk(s: State, e: HealthEvent) {
    e.Counted? ==> Settled(s, e.key) && (e.failed <==> Failure(s.runs[e.key].state))
  }

  ghost predicate HealthOk(s: State) {
    && (forall i :: 0 <= i < |s.health| ==> CountedOk(s, s.health[i]))
    && (forall i, j :: 0 <= i < j < |s.health| && s.health[i].Counted? && s.health[j].Counted? ==>
          !SameFire(s.health[i].key, s.health[j].key))
  }

  lemma CountedKept(cfg: Config, s: State, a: Action, i: nat)
    requires CoreInv(cfg, s) && HealthOk(s) && Grounded(s) && Guard(cfg, s, a)
    requires i < |HealthAfter(cfg, s, a)|
    ensures CountedOk(Apply(cfg, s, a), HealthAfter(cfg, s, a)[i])
  {
    if i < |s.health| {
      var e := s.health[i];
      assert CountedOk(s, e);
      if e.Counted? {
        SettledKept(cfg, s, a, e.key);
      }
    } else if a.OweHealth? {
      assert RowOk(cfg, s.runs, s.pc.key);
    }
  }

  lemma HealthKept(cfg: Config, s: State, a: Action)
    requires CoreInv(cfg, s) && HealthOk(s) && Grounded(s) && Guard(cfg, s, a)
    ensures HealthOk(Apply(cfg, s, a))
  {
    var t := Apply(cfg, s, a);
    forall i | 0 <= i < |t.health|
      ensures CountedOk(t, t.health[i])
    {
      CountedKept(cfg, s, a, i);
    }
    forall i, j | 0 <= i < j < |t.health| && t.health[i].Counted? && t.health[j].Counted?
      ensures !SameFire(t.health[i].key, t.health[j].key)
    {
      if j == |s.health| {
        assert CountedOk(s, s.health[i]);
        if SameFire(t.health[i].key, s.pc.key) {
          NewestIsUnique(cfg, s.runs, s.pc.key, t.health[i].key);
        }
      }
    }
  }

  /** Failed fires since the job's last success, or since the operator resumed it. */
  ghost function Trailing(health: seq<HealthEvent>, job: string): nat {
    if health == [] then 0
    else
      var before := health[..|health| - 1];
      match health[|health| - 1]
      case Counted(k, failed) =>
        if k.job != job then Trailing(before, job)
        else if failed then Trailing(before, job) + 1
        else 0
      case Resumed(j) => if j == job then 0 else Trailing(before, job)
  }

  /** The failures at which the breaker of a job opens; 0 disables it. The
      configured number is not range-checked: a negative one opens at the first. */
  function Threshold(job: Job): int {
    if job.quarantineAfter > 0 then job.quarantineAfter else 1
  }

  ghost predicate BreakerOk(cfg: Config, s: State, j: string)
    requires j in cfg
  {
    var state := StateOf(s.clock, j);
    && state.consecutive == Trailing(s.health, j)
    && (state.IsQuarantined() <==> cfg[j].quarantineAfter != 0 && state.consecutive >= Threshold(cfg[j]))
    && (!state.IsQuarantined() ==> state.skipped == 0)
  }

  ghost predicate BreakersOk(cfg: Config, s: State) {
    forall j :: j in cfg ==> BreakerOk(cfg, s, j)
  }

  /** A final outcome counts as one more failure, or ends the count. */
  lemma BreakerKeptByHealth(cfg: Config, s: State, a: Action, j: string)
    requires Grounded(s) && Guard(cfg, s, a) && a.OweHealth? && j in cfg && BreakerOk(cfg, s, j)
    ensures BreakerOk(cfg, Apply(cfg, s, a), j)
  {
    assert HealthAfter(cfg, s, a)[..|s.health|] == s.health;
  }

  lemma BreakerKeptByResume(cfg: Config, s: State, a: Action, j: string)
    requires Grounded(s) && Guard(cfg, s, a) && a.ClearQuarantine? && j in cfg && BreakerOk(cfg, s, j)
    ensures BreakerOk(cfg, Apply(cfg, s, a), j)
  {
    assert HealthAfter(cfg, s, a)[..|s.health|] == s.health;
  }

  lemma BreakerKeptOtherwise(cfg: Config, s: State, a: Action, j: string)
    requires Grounded(s) && Guard(cfg, s, a) && !a.OweHealth? && !a.ClearQuarantine?
    requires j in cfg && BreakerOk(cfg, s, j)
    ensures BreakerOk(cfg, Apply(cfg, s, a), j)
  {
  }

  lemma BreakerKept(cfg: Config, s: State, a: Action, j: string)
    requires Grounded(s) && Guard(cfg, s, a) && j in cfg && BreakerOk(cfg, s, j)
    ensures BreakerOk(cfg, Apply(cfg, s, a), j)
  {
    if a.OweHealth? {
      BreakerKeptByHealth(cfg, s, a, j);
    } else if a.ClearQuarantine? {
      BreakerKeptByResume(cfg, s, a, j);
    } else {
      BreakerKeptOtherwise(cfg, s, a, j);
    }
  }

  // --- where first attempts come from ------------------------------------------------

  ghost predicate OriginOk(cfg: Config, s: State, k: Key) {
    && k in s.runs && k in s.origin && k.job in cfg
    && (s.origin[k] == ByRetry <==> k.attempt > 1)
    && (s.origin[k] == ByClock ==> !cfg[k.job].Triggered())
    && (s.origin[k].ByUpstream? ==> UpstreamOk(cfg, s, k, s.origin[k].up))
  }

  /** The upstream row behind a triggered fire: same fire time, and settled, as a
      success or as a failure nothing retries. */
  ghost predicate UpstreamOk(cfg: Config, s: State, k: Key, up: Key)
    requires k.job in cfg
  {
    && up.fire == k.fire && up.job in cfg[k.job].after && Settled(s, up)
    && (s.runs[up].state == Succeeded || Failure(s.runs[up].state))
  }

  ghost predicate OriginsOk(cfg: Config, s: State) {
    s.origin.Keys == s.runs.Keys && forall k :: k in s.runs ==> OriginOk(cfg, s, k)
  }

  lemma SuccessIsSettled(cfg: Config, s: State, k: Key)
    requires RowsOk(cfg, s.runs) && s.pc == Idle && k in s.runs && s.runs[k].state == Succeeded
    ensures Settled(s, k)
  {
    assert k.Next() in s.runs ==> RowOk(cfg, s.runs, k.Next()) && k.Next().Previous() == k;
  }

  /** The upstream row a triggered step acts on is settled when it acts. */
  lemma TriggerIsSettled(cfg: Config, s: State, a: Action)
    requires CoreInv(cfg, s) && Grounded(s) && Guard(cfg, s, a)
    ensures a.Claim? && a.from.ByUpstream? ==> Settled(s, a.from.up)
    ensures a.SkipTriggered? ==> Settled(s, a.up)
  {
    if a.Claim? && a.from.ByUpstream? && s.runs[a.from.up].state == Succeeded {
      SuccessIsSettled(cfg, s, a.from.up);
    }
  }

  lemma OriginNeverChanges(cfg: Config, s: State, a: Action, k: Key)
    requires CoreInv(cfg, s) && Grounded(s) && Guard(cfg, s, a) && k in s.runs && k in s.origin
    ensures k in Put(s.runs, WriteOf(cfg, s, a)) && k in OriginAfter(cfg, s, a) && OriginAfter(cfg, s, a)[k] == s.origin[k]
  {
    StepWritesOneRow(cfg, s, a);
  }

  lemma OriginCarries(cfg: Config, s: State, t: State, k: Key)
    requires OriginOk(cfg, s, k) && k in t.runs && k in t.origin && t.origin[k] == s.origin[k]
    requires s.origin[k].ByUpstream? ==> Settled(t, s.origin[k].up) && t.runs[s.origin[k].up] == s.runs[s.origin[k].up]
    ensures OriginOk(cfg, t, k)
  {
  }

  lemma OldOriginKept(cfg: Config, s: State, a: Action, k: Key)
    requires CoreInv(cfg, s) && OriginsOk(cfg, s) && Grounded(s) && Guard(cfg, s, a)
    requires k in s.runs
    ensures OriginOk(cfg, Apply(cfg, s, a), k)
  {
    assert OriginOk(cfg, s, k);
    OriginNeverChanges(cfg, s, a, k);
    if s.origin[k].ByUpstream? {
      SettledKept(cfg, s, a, s.origin[k].up);
    }
    OriginCarries(cfg, s, Apply(cfg, s, a), k);
  }

  lemma NewOriginKept(cfg: Config, s: State, a: Action, k: Key)
    requires CoreInv(cfg, s) && OriginsOk(cfg, s) && Grounded(s) && Guard(cfg, s, a)
    requires k !in s.runs && k in Apply(cfg, s, a).runs
    ensures OriginOk(cfg, Apply(cfg, s, a), k)
  {
    StepWritesOneRow(cfg, s, a);
    TriggerIsSettled(cfg, s, a);
    if a.Claim? && a.from.ByUpstream? {
      SettledKept(cfg, s, a, a.from.up);
    } else if a.SkipTriggered? {
      SettledKept(cfg, s, a, a.up);
    }
  }

  lemma OriginKeys(cfg: Config, s: State, a: Action)
    requires CoreInv(cfg, s) && s.origin.Keys == s.runs.Keys && Grounded(s) && Guard(cfg, s, a)
    ensures OriginAfter(cfg, s, a).Keys == Put(s.runs, WriteOf(cfg, s, a)).Keys
  {
    StepWritesOneRow(cfg, s, a);
    assert forall k :: k in s.origin <==> k in s.runs;
  }

  lemma OriginsKept(cfg: Config, s: State, a: Action)
    requires CoreInv(cfg, s) && OriginsOk(cfg, s) && Grounded(s) && Guard(cfg, s, a)
    ensures OriginsOk(cfg, Apply(cfg, s, a))
  {
    var t := Apply(cfg, s, a);
    OriginKeys(cfg, s, a);
    forall k | k in t.runs
      ensures OriginOk(cfg, t, k)
    {
      if k in s.runs {
        OldOriginKept(cfg, s, a, k);
      } else {
        NewOriginKept(cfg, s, a, k);
      }
    }
  }

  // --- together ------------------------------------------------------------------------

  ghost predicate Inv(cfg: Config, s: State) {
    CoreInv(cfg, s) && BoundsOk(cfg, s) && HealthOk(s) && BreakersOk(cfg, s) && OriginsOk(cfg, s)
  }

  lemma InvKept(cfg: Config, s: State, a: Action)
    requires Inv(cfg, s) && Grounded(s) && Guard(cfg, s, a)
    ensures Inv(cfg, Apply(cfg, s, a))
  {
    var t := Apply(cfg, s, a);
    CoreKept(cfg, s, a);
    forall k | k in t.runs
      ensures BoundOk(cfg, t.runs, k)
    {
      BoundKept(cfg, s, a, k);
    }
    HealthKept(cfg, s, a);
    forall j | j in cfg
      ensures BreakerOk(cfg, t, j)
    {
      BreakerKept(cfg, s, a, j);
    }
    OriginsKept(cfg, s, a);
  }
}
