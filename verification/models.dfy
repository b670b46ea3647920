/** The domain types of `models.py`: run states, the transition table, jobs and
    the record a daemon moves through the table. */
module Models {

  datatype Option<+T> = None | Some(value: T)

  datatype Result<+T, +E> = Ok(value: T) | Err(error: E)

  /** The order of texts, character by character: how SQL compares two columns, and
      Python two names. */
  predicate Less(a: string, b: string) {
    b != [] && (a == [] || a[0] < b[0] || (a[0] == b[0] && Less(a[1..], b[1..])))
  }

  lemma {:induction false} NotLessThanItself(s: string)
    ensures !Less(s, s)
  {
    if s != [] {
      NotLessThanItself(s[1..]);
    }
  }

  lemma {:induction false} LessIsTotal(a: string, b: string)
    ensures Less(a, b) || a == b || Less(b, a)
  {
    if a != [] && b != [] && a[0] == b[0] {
      LessIsTotal(a[1..], b[1..]);
      assert a == [a[0]] + a[1..] && b == [b[0]] + b[1..];
    }
  }

  lemma {:induction false} LessIsTransitive(a: string, b: string, c: string)
    requires Less(a, b) && Less(b, c)
    ensures Less(a, c)
  {
    if a != [] && a[0] == b[0] == c[0] {
      LessIsTransitive(a[1..], b[1..], c[1..]);
    }
  }

  datatype RunState =
    | Pending | Claimed | Running
    | Succeeded | Failed | TimedOut | Lost
    | Retrying | Skipped | Quarantined

  /** `_TRANSITIONS`: everything not listed raises. */
  predicate Allowed(from: RunState, to: RunState) {
    match from
    case Pending => to.Claimed? || to.Skipped?
    case Claimed => to.Running? || to.Lost?
    case Running => to.Succeeded? || to.Failed? || to.TimedOut? || to.Lost?
    case Failed => to.Retrying? || to.Quarantined?
    case TimedOut => to.Retrying? || to.Quarantined?
    case Lost => to.Retrying? || to.Quarantined? || to.Skipped?
    case Retrying => to.Claimed?
    case _ => false
  }

  /** `RETRYABLE_OUTCOMES`. */
  predicate Retryable(outcome: RunState) {
    outcome.Failed? || outcome.TimedOut?
  }

  /** `FAILURE_OUTCOMES`. */
  predicate Failure(outcome: RunState) {
    outcome.Failed? || outcome.TimedOut? || outcome.Lost?
  }

  /** The table read backwards: what each state can come from. */
  lemma ComesFrom(from: RunState, to: RunState)
    ensures Allowed(from, to) <==>
      || (to.Claimed? && (from.Pending? || from.Retrying?))
      || (to.Running? && from.Claimed?)
      || ((to.Succeeded? || to.Failed? || to.TimedOut?) && from.Running?)
      || (to.Lost? && (from.Claimed? || from.Running?))
      || ((to.Retrying? || to.Quarantined?) && (from.Failed? || from.TimedOut? || from.Lost?))
      || (to.Skipped? && (from.Pending? || from.Lost?))
  {
  }

  /** A row whose `finished_at` is NULL in every state the scheduler leaves it in. */
  predicate Open(state: RunState) {
    state.Claimed? || state.Running? || state.Retrying?
  }

  /** A row that no statement of the scheduler moves again. */
  predicate Final(state: RunState) {
    state.Succeeded? || state.Failed? || state.TimedOut? || state.Lost? || state.Skipped?
  }

  /** What a process that ran to its end leaves on its row. */
  predicate Outcome(state: RunState) {
    state.Succeeded? || state.Failed? || state.TimedOut?
  }

  /** A row some daemon is working on. */
  predicate Active(state: RunState) {
    state.Claimed? || state.Running?
  }

  datatype Backoff = Fixed | Linear | Exponential

  /** `d * 2 ** n`. */
  function Doubled(d: int, n: nat): int {
    if n == 0 then d else 2 * Doubled(d, n - 1)
  }

  datatype RetryPolicy = RetryPolicy(max: int, backoff: Backoff, baseDelay: int, maxDelay: int) {
    /** Seconds to wait before the retry that follows attempt number `attempt` (1-based). */
    function DelayForAttempt(attempt: int): int
      requires attempt >= 1
    {
      var d := match backoff
        case Fixed => baseDelay
        case Linear => baseDelay * attempt
        case Exponential => Doubled(baseDelay, attempt - 1);
      if d <= maxDelay then d else maxDelay
    }

    /** How many attempts the policy itself grants; `retries.max` is not range-checked. */
    function Budget(): (n: int)
      ensures n >= 1
    {
      if max > 0 then max + 1 else 1
    }
  }

  datatype OnLost = LostFails | LostRetries

  datatype UpstreamPolicy = SkipOnFailure | RunOnFailure | WaitOnFailure

  datatype MissedPolicy = SkipMissed | RunLatest | RunEach

  datatype Job = Job(
    name: string,
    after: seq<string>,
    onUpstreamFailure: UpstreamPolicy,
    waitTimeout: Option<int>,
    missed: MissedPolicy,
    retries: RetryPolicy,
    idempotent: bool,
    onLost: Option<OnLost>,
    catchUpCap: int,
    concurrency: int,
    quarantineAfter: int,
    quarantineCooldown: Option<int>,
    enabled: bool)
  {
    predicate Triggered() { after != [] }

    /** `effective_on_lost`: an explicit policy, or the one derived from `idempotent`. */
    function EffectiveOnLost(): OnLost {
      match onLost
      case Some(policy) => policy
      case None => if idempotent then LostRetries else LostFails
    }
  }

  /** The breaker fields and catch-up baseline of one `job_clock` row. `lastFire`
      is None only for a job that has no row. */
  datatype JobState = JobState(
    lastFire: Option<int>,
    consecutive: nat,
    quarantinedAt: Option<int>,
    skipped: nat,
    resumeRequested: bool)
  {
    predicate IsQuarantined() { quarantinedAt.Some? }

    /** `_clear_quarantine`. */
    function Cleared(): JobState {
      this.(consecutive := 0, quarantinedAt := None, skipped := 0, resumeRequested := false)
    }
  }

  const NO_STATE := JobState(None, 0, None, 0, false)

  /** The claim key: UNIQUE (job, scheduled_for, attempt). */
  datatype Key = Key(job: string, fire: int, attempt: int) {
    function Next(): Key { this.(attempt := attempt + 1) }
    function Previous(): Key { this.(attempt := attempt - 1) }
  }

  /** The columns of a `runs` row that decide what happens to it. */
  datatype Row = Row(
    state: RunState,
    finishedAt: Option<int>,
    notBefore: Option<int>,
    pid: Option<int>)

  /** A `Run` held in memory: the record a block reads from the store, edits and
      writes back with `mark`. */
  class Run {
    const key: Key
    var state: RunState
    var finishedAt: Option<int>
    var notBefore: Option<int>
    var pid: Option<int>

    constructor (key: Key, row: Row)
      ensures this.key == key && AsRow() == row
    {
      this.key := key;
      state, finishedAt, notBefore, pid := row.state, row.finishedAt, row.notBefore, row.pid;
    }

    function AsRow(): Row
      reads this
    {
      Row(state, finishedAt, notBefore, pid)
    }

    /** `transition_to`: moves the record exactly when the table allows it; a
        refused move (the exception) leaves it as it was. */
    method TransitionTo(to: RunState) returns (ok: bool)
      modifies this`state
      ensures ok == Allowed(old(state), to)
      ensures state == if ok then to else old(state)
    {
      ok := Allowed(state, to);
      if ok {
        state := to;
      }
    }
  }
}
