/** The tables of `store.py`. Each SQL statement is one function on a table; the
    class `Store` holds the tables and executes the statements. */
module Tables {
  import opened Models

  type Runs = map<Key, Row>
  type Clock = map<string, JobState>

  // --- statements on `runs` ---------------------------------------------

  const CLAIMED_ROW := Row(Claimed, None, None, None)

  function SkippedRow(now: int): Row { Row(Skipped, Some(now), None, None) }

  function RetryRow(notBefore: int): Row { Row(Retrying, None, Some(notBefore), None) }

  /** INSERT … ON CONFLICT DO NOTHING. */
  function InsertIfAbsent(runs: Runs, key: Key, row: Row): Runs {
    if key in runs then runs else runs[key := row]
  }

  // --- statements on `job_clock` ----------------------------------------

  function StateOf(clock: Clock, job: string): JobState {
    if job in clock then clock[job] else NO_STATE
  }

  /** Overwrites; it never takes a maximum. */
  function SetLastFire(clock: Clock, job: string, when: int): Clock {
    clock[job := StateOf(clock, job).(lastFire := Some(when))]
  }

  /** Saves everything but `last_fire`, which a new row gets from the clock. */
  function SaveJobState(clock: Clock, job: string, state: JobState, now: int): Clock {
    clock[job := state.(lastFire := if job in clock then clock[job].lastFire else Some(now))]
  }

  /** `request_resume`: raises the flag, creating the row if it has to. */
  function RaiseResume(clock: Clock, job: string, now: int): Clock {
    SaveJobState(clock, job, StateOf(clock, job).(resumeRequested := true), now)
  }

  /** The four columns of the breaker. */
  predicate SameBreaker(a: JobState, b: JobState) {
    a.consecutive == b.consecutive && a.quarantinedAt == b.quarantinedAt && a.skipped == b.skipped
    && a.resumeRequested == b.resumeRequested
  }

  /** The clock rows of all other jobs are as they were. */
  ghost predicate OthersKept(was: Clock, clock: Clock, job: string) {
    forall j :: j != job ==> (j in clock <==> j in was) && StateOf(clock, j) == StateOf(was, j)
  }

  // --- queries ----------------------------------------------------------

  lemma EmptyOrInhabited(s: set<int>)
    ensures s == {} || exists x :: x in s
  {
    if forall x :: x !in s {
      assert s == {};
    }
  }

  /** The greatest element of a finite set of integers. */
  ghost function MaxOf(s: set<int>): (m: int)
    requires s != {}
    ensures m in s && forall x :: x in s ==> x <= m
  {
    EmptyOrInhabited(s);
    var x :| x in s;
    if s == {x} then x
    else
      assert s == (s - {x}) + {x};
      var m := MaxOf(s - {x});
      if m > x then m else x
  }

  ghost function SuccessFires(runs: Runs, job: string): set<int> {
    set k | k in runs && k.job == job && runs[k].state == Succeeded :: k.fire
  }

  /** SELECT MAX(scheduled_for) … state='succeeded'. */
  ghost function LastSuccess(runs: Runs, job: string): (fire: Option<int>)
    ensures fire.None? <==> forall k :: k in runs && k.job == job ==> runs[k].state != Succeeded
    ensures fire.Some? ==>
              && (exists k :: k in runs && k.job == job && k.fire == fire.value && runs[k].state == Succeeded)
              && (forall k :: k in runs && k.job == job && runs[k].state == Succeeded ==> k.fire <= fire.value)
  {
    var fires := SuccessFires(runs, job);
    assert forall k :: k in runs && k.job == job && runs[k].state == Succeeded ==> k.fire in fires;
    if fires == {} then None else Some(MaxOf(fires))
  }

  ghost predicate IsLastRun(runs: Runs, job: string, key: Key) {
    && key in runs && key.job == job
    && forall k :: k in runs && k.job == job ==> k.fire < key.fire || (k.fire == key.fire && k.attempt <= key.attempt)
  }

  /** SELECT … ORDER BY scheduled_for DESC, attempt DESC LIMIT 1. */
  ghost function LastRun(runs: Runs, job: string): (key: Option<Key>)
    ensures key.None? <==> forall k :: k in runs ==> k.job != job
    ensures key.Some? ==> IsLastRun(runs, job, key.value)
  {
    var fires := set k | k in runs && k.job == job :: k.fire;
    assert forall k :: k in runs && k.job == job ==> k.fire in fires;
    if fires == {} then None
    else
      var fire := MaxOf(fires);
      var attempts := set k | k in runs && k.job == job && k.fire == fire :: k.attempt;
      assert forall k :: k in runs && k.job == job && k.fire == fire ==> k.attempt in attempts;
      var k0 :| k0 in runs && k0.job == job && k0.fire == fire;
      assert k0.attempt in attempts;
      Some(Key(job, fire, MaxOf(attempts)))
  }

  ghost function OpenRuns(runs: Runs): set<Key> {
    set k | k in runs && runs[k].finishedAt.None?
  }

  /** Retries whose wait is over. */
  ghost predicate IsDue(runs: Runs, now: int, k: Key) {
    k in runs && runs[k].state == Retrying && runs[k].notBefore.Some? && runs[k].notBefore.value <= now
  }

  ghost predicate WaitsNoLonger(runs: Runs, k: Key, l: Key) {
    && k in runs && l in runs && runs[k].notBefore.Some? && runs[l].notBefore.Some?
    && runs[k].notBefore.value <= runs[l].notBefore.value
  }

  // --- the store --------------------------------------------------------

  /** The tables a daemon works on. Each method is one SQL statement, so one
      atomic change that survives a crash. */
  class Store {
    var runs: Runs
    var clock: Clock

    constructor ()
      ensures runs == map[] && clock == map[]
    {
      runs, clock := map[], map[];
    }

    /** The exactly-once boundary: creates the row of an attempt and says whether
        this caller did. */
    method Claim(key: Key) returns (won: bool)
      modifies this`runs
      ensures won <==> key !in old(runs)
      ensures runs == InsertIfAbsent(old(runs), key, CLAIMED_ROW)
      ensures runs == if won then old(runs)[key := Row(Claimed, None, None, None)] else old(runs)
    {
      won := key !in runs;
      runs := InsertIfAbsent(runs, key, CLAIMED_ROW);
    }

    /** UPDATE … WHERE id = ?. */
    method Mark(run: Run)
      modifies this`runs
      ensures runs == if run.key in old(runs) then old(runs)[run.key := run.AsRow()] else old(runs)
    {
      if run.key in runs {
        runs := runs[run.key := run.AsRow()];
      }
    }

    method ScheduleRetry(key: Key, notBefore: int) returns (made: bool)
      modifies this`runs
      ensures made <==> key !in old(runs)
      ensures runs == InsertIfAbsent(old(runs), key, RetryRow(notBefore))
      ensures runs == if made then old(runs)[key := Row(Retrying, None, Some(notBefore), None)] else old(runs)
    {
      made := key !in runs;
      runs := InsertIfAbsent(runs, key, RetryRow(notBefore));
    }

    method RecordSkip(job: string, fire: int, now: int) returns (made: bool)
      modifies this`runs
      ensures made <==> Key(job, fire, 1) !in old(runs)
      ensures runs == InsertIfAbsent(old(runs), Key(job, fire, 1), SkippedRow(now))
      ensures runs == if made then old(runs)[Key(job, fire, 1) := Row(Skipped, Some(now), None, None)] else old(runs)
    {
      made := Key(job, fire, 1) !in runs;
      runs := InsertIfAbsent(runs, Key(job, fire, 1), SkippedRow(now));
    }

    method PutLastFire(job: string, when: int)
      modifies this`clock
      ensures clock == SetLastFire(old(clock), job, when)
      ensures job in clock && clock[job].lastFire == Some(when) && SameBreaker(clock[job], StateOf(old(clock), job))
      ensures job !in old(clock) ==> clock[job] == JobState(Some(when), 0, None, 0, false)
      ensures OthersKept(old(clock), clock, job)
    {
      clock := SetLastFire(clock, job, when);
    }

    method SaveState(job: string, state: JobState, now: int)
      modifies this`clock
      ensures clock == SaveJobState(old(clock), job, state, now)
      ensures job in clock && SameBreaker(clock[job], state) && OthersKept(old(clock), clock, job)
      ensures job in old(clock) ==> clock[job].lastFire == old(clock)[job].lastFire
      ensures job !in old(clock) ==> clock[job].lastFire == Some(now)
    {
      clock := SaveJobState(clock, job, state, now);
    }

    method RequestResume(job: string, now: int)
      modifies this`clock
      ensures clock == RaiseResume(old(clock), job, now)
      ensures job in clock && clock[job].resumeRequested && OthersKept(old(clock), clock, job)
      ensures job in old(clock) ==> clock[job].lastFire == old(clock)[job].lastFire
      ensures job !in old(clock) ==> clock[job] == JobState(Some(now), 0, None, 0, true)
      ensures SameBreaker(clock[job].(resumeRequested := false), StateOf(old(clock), job).(resumeRequested := false))
    {
      clock := RaiseResume(clock, job, now);
    }

    /** `finished_at IS NULL`, in no particular order. */
    method ListOpen() returns (open: seq<Key>)
      ensures forall k :: k in open <==> k in OpenRuns(runs)
      ensures forall i, j :: 0 <= i < j < |open| ==> open[i] != open[j]
    {
      var rest := set k | k in runs && runs[k].finishedAt.None?;
      open := ToSeq(rest);
    }

    /** Due retries, oldest wait first. */
    method DueRetries(now: int) returns (due: seq<Key>)
      ensures forall k :: k in due <==> IsDue(runs, now, k)
      ensures forall i, j :: 0 <= i < j < |due| ==> due[i] != due[j]
      ensures forall i, j :: 0 <= i < j < |due| ==> WaitsNoLonger(runs, due[i], due[j])
    {
      var rest := set k | k in runs && runs[k].state == Retrying && runs[k].notBefore.Some? && runs[k].notBefore.value <= now;
      due := [];
      while rest != {}
        invariant forall k :: k in rest || k in due <==> IsDue(runs, now, k)
        invariant forall k :: k in rest ==> k !in due
        invariant forall i, j :: 0 <= i < j < |due| ==> due[i] != due[j]
        invariant forall i, j :: 0 <= i < j < |due| ==> WaitsNoLonger(runs, due[i], due[j])
        invariant forall i, k :: 0 <= i < |due| && k in rest ==> WaitsNoLonger(runs, due[i], k)
        decreases |rest|
      {
        var k := Soonest(rest);
        rest := rest - {k};
        due := due + [k];
      }
    }

    method Soonest(keys: set<Key>) returns (best: Key)
      requires keys != {} && forall k :: k in keys ==> k in runs && runs[k].notBefore.Some?
      ensures best in keys && forall k :: k in keys ==> runs[best].notBefore.value <= runs[k].notBefore.value
    {
      best :| best in keys;
      var rest := keys - {best};
      while rest != {}
        invariant best in keys && rest <= keys
        invariant forall k :: k in keys - rest ==> runs[best].notBefore.value <= runs[k].notBefore.value
        decreases |rest|
      {
        var k :| k in rest;
        if runs[k].notBefore.value < runs[best].notBefore.value {
          best := k;
        }
        rest := rest - {k};
      }
    }

    /** `MAX(scheduled_for)` over the job's successes. */
    method LastSuccessFire(job: string) returns (fire: Option<int>)
      ensures fire == LastSuccess(runs, job)
    {
      var rest := runs.Keys;
      fire := None;
      while rest != {}
        invariant rest <= runs.Keys
        invariant fire.Some? ==> exists k :: k in runs && k.job == job && k.fire == fire.value && runs[k].state == Succeeded
        invariant forall k :: k in runs.Keys - rest && k.job == job && runs[k].state == Succeeded ==>
                    fire.Some? && k.fire <= fire.value
        decreases |rest|
      {
        var k :| k in rest;
        if k.job == job && runs[k].state == Succeeded && (fire.None? || k.fire > fire.value) {
          fire := Some(k.fire);
        }
        rest := rest - {k};
      }
    }

    /** The newest attempt of the job's newest fire. */
    method NewestRun(job: string) returns (key: Option<Key>)
      ensures key == LastRun(runs, job)
    {
      var rest := runs.Keys;
      key := None;
      while rest != {}
        invariant rest <= runs.Keys
        invariant key.Some? ==> key.value in runs && key.value.job == job
        invariant forall k :: k in runs.Keys - rest && k.job == job ==>
                    key.Some? && (k.fire < key.value.fire || (k.fire == key.value.fire && k.attempt <= key.value.attempt))
        decreases |rest|
      {
        var k :| k in rest;
        if k.job == job
          && (key.None? || k.fire > key.value.fire || (k.fire == key.value.fire && k.attempt > key.value.attempt))
        {
          key := Some(k);
        }
        rest := rest - {k};
      }
    }
  }

  method ToSeq(keys: set<Key>) returns (s: seq<Key>)
    ensures forall k :: k in s <==> k in keys
    ensures forall i, j :: 0 <= i < j < |s| ==> s[i] != s[j]
  {
    s := [];
    var rest := keys;
    while rest != {}
      invariant rest <= keys
      invariant forall k :: k in s <==> k in keys - rest
      invariant forall i, j :: 0 <= i < j < |s| ==> s[i] != s[j]
      decreases |rest|
    {
      var k :| k in rest;
      rest := rest - {k};
      s := s + [k];
    }
  }
}
