/** Leader election by a lease: any number of daemons over one shared row of
    `leases`, on one shared clock. Instants are microseconds; the store keeps whole
    seconds, because that is what its timestamps keep. */
module Leases {
  import opened Models
  import opened Timestamps

  /** `_LEASE_TTL`, 30 seconds. */
  const TTL := 30 * MICRO

  datatype Lease = Lease(holder: string, fence: int, expires: int)

  type Slot = Option<Lease>

  // --- the statements ------------------------------------------------------------

  predicate CanAcquire(row: Slot, who: string, now: int) {
    row.None? || row.value.expires < Secs(now) || row.value.holder == who
  }

  /** INSERT … ON CONFLICT DO UPDATE … WHERE expired or already ours. */
  function Acquired(row: Slot, who: string, now: int, ttl: int): Slot {
    if !CanAcquire(row, who, now) then row
    else Some(Lease(who, if row.None? then 1 else row.value.fence + 1, Secs(now + ttl)))
  }

  predicate CanRenew(row: Slot, who: string, fence: int) {
    row.Some? && row.value.holder == who && row.value.fence == fence
  }

  /** UPDATE … WHERE holder and fence match; whether the lease expired is not asked. */
  function Renewed(row: Slot, who: string, fence: int, now: int, ttl: int): Slot {
    if CanRenew(row, who, fence) then Some(row.value.(expires := Secs(now + ttl))) else row
  }

  /** DELETE … WHERE holder matches. */
  function Released(row: Slot, who: string): Slot {
    if row.Some? && row.value.holder == who then None else row
  }

  class LeaseTable {
    var row: Slot

    constructor ()
      ensures row == None
    {
      row := None;
    }

    method AcquireLease(who: string, ttl: int, now: int) returns (lease: Slot)
      modifies this
      ensures row == Acquired(old(row), who, now, ttl)
      ensures lease == if CanAcquire(old(row), who, now) then row else None
      ensures lease.Some? <==> old(row).None? || old(row).value.expires < Secs(now) || old(row).value.holder == who
      ensures lease.Some? ==> row == Some(Lease(who, if old(row).None? then 1 else old(row).value.fence + 1, Secs(now + ttl)))
      ensures lease.None? ==> row == old(row)
    {
      if CanAcquire(row, who, now) {
        row := Acquired(row, who, now, ttl);
        return row;
      }
      return None;
    }

    method RenewLease(who: string, fence: int, ttl: int, now: int) returns (ok: bool)
      modifies this
      ensures ok == CanRenew(old(row), who, fence) && row == Renewed(old(row), who, fence, now, ttl)
      ensures ok <==> old(row).Some? && old(row).value.holder == who && old(row).value.fence == fence
      ensures ok ==> row == Some(Lease(who, fence, Secs(now + ttl)))
      ensures !ok ==> row == old(row)
    {
      ok := CanRenew(row, who, fence);
      row := Renewed(row, who, fence, now, ttl);
    }

    method ReleaseLease(who: string)
      modifies this
      ensures row == Released(old(row), who)
      ensures old(row).Some? && old(row).value.holder == who ==> row == None
      ensures old(row).Some? && old(row).value.holder != who ==> row == old(row)
    {
      row := Released(row, who);
    }

    /** `lease_holder`: the holder of a lease that has not expired. While it names one,
        nobody else can acquire; when it names nobody, either anyone can, or the lease
        is in its last second, when its holder alone still can. */
    method LeaseHolder(now: int) returns (who: Option<string>)
      ensures who.Some? ==> forall d :: CanAcquire(row, d, now) <==> d == who.value
      ensures who.None? ==>
                || (forall d :: CanAcquire(row, d, now))
                || (row.Some? && row.value.expires == Secs(now) && forall d :: CanAcquire(row, d, now) <==> d == row.value.holder)
      ensures row.Some? && row.value.expires == Secs(now) ==> who.None?
    {
      who := if row.Some? && row.value.expires > Secs(now) then Some(row.value.holder) else None;
    }
  }

  /** One daemon's own view: `_leader` and `_fence`. */
  class Candidate {
    const id: string
    const cluster: bool
    const table: LeaseTable
    var leader: bool
    var fence: int

    constructor (id: string, cluster: bool, table: LeaseTable)
      ensures this.id == id && this.cluster == cluster && this.table == table && !leader && fence == 0
    {
      this.id, this.cluster, this.table := id, cluster, table;
      leader, fence := false, 0;
    }

    /** `_become_leader`: a lone daemon always leads and takes no lease. */
    method BecomeLeader(now: int) returns (won: bool)
      modifies this, table
      ensures won == (!cluster || CanAcquire(old(table.row), id, now))
      ensures table.row == if cluster then Acquired(old(table.row), id, now, TTL) else old(table.row)
      ensures won ==> leader
      ensures !won ==> leader == old(leader)
      ensures cluster && won ==> CanRenew(table.row, id, fence) && table.row.value.expires == Secs(now + 30_000_000)
      ensures !won ==> fence == old(fence) && table.row == old(table.row)
    {
      if !cluster {
        leader := true;
        return true;
      }
      var lease := table.AcquireLease(id, TTL, now);
      if lease.None? {
        return false;
      }
      leader, fence := true, lease.value.fence;
      return true;
    }

    /** `_renew_lease`: a store error counts as having lost the lease. */
    method RenewLease(storeUp: bool, now: int) returns (ok: bool)
      modifies table
      ensures ok == (storeUp && CanRenew(old(table.row), id, fence))
      ensures table.row == if storeUp then Renewed(old(table.row), id, fence, now, TTL) else old(table.row)
    {
      if !storeUp {
        return false;
      }
      ok := table.RenewLease(id, fence, TTL, now);
    }
  }

  // --- all daemons together ------------------------------------------------------------

  /** Standing by; in a block that began with a won acquire or renew (recovery, the
      planning of catch-up, one pass of the tick loop); or asleep between two blocks. */
  datatype Phase = Standby | Acting | Asleep

  /** `until` is the instant up to which the daemon's last acquire or renew holds, and
      `left` the missed fires its `_run_sequence` tasks have still to claim. Those tasks
      belong to the daemon, not to its leadership: they look at `draining` only. */
  datatype Daemon = Daemon(phase: Phase, fence: int, until: int, left: nat, draining: bool)

  /** History: one stretch of time a won acquire or renew claims for a daemon. */
  datatype Hold = Hold(who: string, from: int, to: int)

  datatype Cluster = Cluster(row: Slot, now: int, daemons: map<string, Daemon>, holds: seq<Hold>, wins: nat)

  datatype Event =
    | Acquire(who: string, missed: nat)  // a winner plans to replay that many missed fires
    | Renew(who: string)
    | RenewFails(who: string)            // the store raised
    | Act(who: string)                   // one statement of the block under way
    | Sleep(who: string)
    | Replay(who: string)                // one turn of `_run_sequence`, between two blocks
    | Drain(who: string)
    | Release(who: string)               // the `finally` of run(): the daemon is gone
    | Die(who: string)                   // a crash: the lease is not released
    | Pass(to: int)                      // time passes

  predicate Enabled(c: Cluster, e: Event) {
    match e
    case Acquire(d, _) => d in c.daemons && c.daemons[d].phase == Standby && !c.daemons[d].draining
    case Renew(d) => d in c.daemons && c.daemons[d].phase != Standby && !c.daemons[d].draining
    case RenewFails(d) => d in c.daemons && c.daemons[d].phase != Standby && !c.daemons[d].draining
    case Act(d) => d in c.daemons && c.daemons[d].phase == Acting
    case Sleep(d) => d in c.daemons && c.daemons[d].phase == Acting
    case Replay(d) =>
      d in c.daemons && c.daemons[d].phase != Acting && c.daemons[d].left > 0 && !c.daemons[d].draining
    case Drain(d) => d in c.daemons && c.daemons[d].phase != Acting
    case Release(d) => d in c.daemons
    case Die(d) => d in c.daemons
    case Pass(to) => to >= c.now
  }

  /** A release ends the daemon's holds. */
  function CutHolds(holds: seq<Hold>, who: string, now: int): seq<Hold> {
    seq(|holds|, i requires 0 <= i < |holds| =>
      if holds[i].who == who && holds[i].to > now then holds[i].(to := now) else holds[i])
  }

  function Lead(c: Cluster, who: string, row: Slot, fence: int, missed: nat): Cluster
    requires who in c.daemons
  {
    var x := c.daemons[who];
    c.(row := row, daemons := c.daemons[who := x.(phase := Acting, fence := fence, until := c.now + TTL, left := x.left + missed)],
       holds := c.holds + [Hold(who, c.now, c.now + TTL)])
  }

  function StandBy(c: Cluster, who: string): Cluster
    requires who in c.daemons
  {
    c.(daemons := c.daemons[who := c.daemons[who].(phase := Standby)])
  }

  /** The process is gone, and its tasks with it. */
  function Gone(c: Cluster, who: string): Cluster
    requires who in c.daemons
  {
    c.(daemons := c.daemons[who := c.daemons[who].(phase := Standby, left := 0, draining := false)])
  }

  function Apply(c: Cluster, e: Event): Cluster
    requires Enabled(c, e)
  {
    match e
    case Acquire(d, missed) =>
      if !CanAcquire(c.row, d, c.now) then c
      else
        var row := Acquired(c.row, d, c.now, TTL);
        Lead(c, d, row, row.value.fence, missed).(wins := c.wins + 1)
    case Renew(d) =>
      if CanRenew(c.row, d, c.daemons[d].fence)
      then Lead(c, d, Renewed(c.row, d, c.daemons[d].fence, c.now, TTL), c.daemons[d].fence, 0)
      else StandBy(c, d)
    case RenewFails(d) => StandBy(c, d)
    case Act(_) => c
    case Sleep(d) => c.(daemons := c.daemons[d := c.daemons[d].(phase := Asleep)])
    case Replay(d) => c.(daemons := c.daemons[d := c.daemons[d].(left := c.daemons[d].left - 1)])
    case Drain(d) => c.(daemons := c.daemons[d := c.daemons[d].(draining := true)])
    case Release(d) =>
      Gone(c, d).(row := Released(c.row, d), holds := CutHolds(c.holds, d, c.now),
                  wins := if Released(c.row, d).None? then 0 else c.wins)
    case Die(d) => Gone(c, d)
    case Pass(to) => c.(now := to)
  }

  predicate Fresh(c: Cluster) {
    && c.row == None && c.holds == [] && c.wins == 0
    && forall d :: d in c.daemons ==> c.daemons[d].phase == Standby && c.daemons[d].left == 0
  }

  /** A run of the cluster: any interleaving of the daemons' statements. */
  ghost predicate IsRun(events: seq<Event>, states: seq<Cluster>) {
    && |states| == |events| + 1 && Fresh(states[0])
    && forall i :: 0 <= i < |events| ==> Enabled(states[i], events[i]) && states[i + 1] == Apply(states[i], events[i])
  }

  // --- exclusion --------------------------------------------------------------------------

  /** How a past hold relates to the row: a hold of the present holder is covered by
      the stored expiry; any other is over. */
  predicate HoldOk(c: Cluster, h: Hold) {
    if c.row.Some? && c.row.value.holder == h.who then Secs(h.to) <= c.row.value.expires && h.to <= c.now + TTL
    else h.to <= c.now
  }

  predicate Owns(c: Cluster, d: string) { c.row.Some? && c.row.value.holder == d }

  /** A daemon that leads, or thinks it does, remembers its last hold. If the row is
      still its own, it expires when that hold does; if not, the hold is over. */
  predicate DaemonOk(c: Cluster, d: string)
    requires d in c.daemons
  {
    var x := c.daemons[d];
    x.phase != Standby ==>
      && (exists i :: 0 <= i < |c.holds| && c.holds[i].who == d && c.holds[i].to == x.until)
      && (if Owns(c, d) then c.row.value.expires == Secs(x.until) else Secs(x.until) < Secs(c.now))
  }

  ghost predicate Inv(c: Cluster) {
    && (forall i :: 0 <= i < |c.holds| ==> HoldOk(c, c.holds[i]))
    && (forall i, j :: 0 <= i < j < |c.holds| && c.holds[i].who != c.holds[j].who ==> c.holds[i].to <= c.holds[j].from)
    && (forall d :: d in c.daemons ==> DaemonOk(c, d))
    && (c.row.Some? ==> c.row.value.fence == c.wins)
    && (c.row.None? ==> c.wins == 0)
  }

  lemma HoldKept(c: Cluster, e: Event, h: Hold)
    requires Enabled(c, e) && HoldOk(c, h)
    ensures !e.Release? ==> HoldOk(Apply(c, e), h)
    ensures e.Release? ==>
      HoldOk(Apply(c, e), if h.who == e.who && h.to > c.now then h.(to := c.now) else h)
  {
  }

  lemma HoldsKept(c: Cluster, e: Event)
    requires Enabled(c, e) && Inv(c)
    ensures var t := Apply(c, e);
      && (forall i :: 0 <= i < |t.holds| ==> HoldOk(t, t.holds[i]))
      && (forall i, j :: 0 <= i < j < |t.holds| && t.holds[i].who != t.holds[j].who ==> t.holds[i].to <= t.holds[j].from)
  {
    var t := Apply(c, e);
    forall i | 0 <= i < |t.holds|
      ensures HoldOk(t, t.holds[i])
    {
      if i < |c.holds| {
        HoldKept(c, e, c.holds[i]);
      }
    }
    forall i, j | 0 <= i < j < |t.holds| && t.holds[i].who != t.holds[j].who
      ensures t.holds[i].to <= t.holds[j].from
    {
      if j == |c.holds| {
        assert HoldOk(c, c.holds[i]);
      } else {
        assert c.holds[i].to <= c.holds[j].from;
      }
    }
  }

  lemma DaemonKept(c: Cluster, e: Event, d: string)
    requires Enabled(c, e) && d in c.daemons && DaemonOk(c, d)
    ensures d in Apply(c, e).daemons && DaemonOk(Apply(c, e), d)
  {
    var t := Apply(c, e);
    var x := t.daemons[d];
    if x.phase != Standby {
      if t.holds == c.holds + [Hold(d, c.now, c.now + TTL)] && x.until == c.now + TTL {
        assert t.holds[|c.holds|].who == d;
      } else {
        var i :| 0 <= i < |c.holds| && c.holds[i].who == d && c.holds[i].to == c.daemons[d].until;
        assert t.holds[i].who == d && t.holds[i].to == x.until;
      }
    }
  }

  lemma InvKept(c: Cluster, e: Event)
    requires Enabled(c, e) && Inv(c)
    ensures Inv(Apply(c, e))
  {
    HoldsKept(c, e);
    forall d | d in Apply(c, e).daemons
      ensures DaemonOk(Apply(c, e), d)
    {
      assert d in c.daemons;
      DaemonKept(c, e, d);
    }
  }

  lemma {:induction false} EveryStateIsSound(events: seq<Event>, states: seq<Cluster>, i: nat)
    requires IsRun(events, states) && i <= |events|
    ensures Inv(states[i])
  {
    if i > 0 {
      EveryStateIsSound(events, states, i - 1);
      assert Enabled(states[i - 1], events[i - 1]);
      InvKept(states[i - 1], events[i - 1]);
    }
  }

  /** Exclusion: over any run, what two different daemons ever held does not overlap.
      A hold runs from a won acquire or renew for the lease's full time to live, or
      until the daemon released the lease. */
  lemma HoldsNeverOverlap(events: seq<Event>, states: seq<Cluster>, i: nat, m: nat, n: nat, t: int)
    requires IsRun(events, states) && i <= |events| && m < |states[i].holds| && n < |states[i].holds|
    requires states[i].holds[m].who != states[i].holds[n].who
    requires states[i].holds[m].from <= t < states[i].holds[m].to
    ensures !(states[i].holds[n].from <= t < states[i].holds[n].to)
  {
    EveryStateIsSound(events, states, i);
  }

  /** In any state the renewal of at most one daemon would succeed. */
  lemma OneRenewalAtMost(c: Cluster, d: string, e: string)
    requires d in c.daemons && e in c.daemons && d != e
    ensures !(CanRenew(c.row, d, c.daemons[d].fence) && CanRenew(c.row, e, c.daemons[e].fence))
  {
  }

  /** Fences rise by one per acquire: the stored fence is the number of acquires won
      since the row was last deleted. */
  lemma FenceCountsAcquires(events: seq<Event>, states: seq<Cluster>, i: nat)
    requires IsRun(events, states) && i <= |events| && states[i].row.Some?
    ensures states[i].row.value.fence == states[i].wins
    ensures i < |events| && Wins(events, states, i) ==>
      states[i + 1].row.Some? && states[i + 1].row.value.fence == states[i].row.value.fence + 1
  {
    EveryStateIsSound(events, states, i);
    if i < |events| {
      assert states[i + 1] == Apply(states[i], events[i]);
    }
  }

  // --- the exact second ---------------------------------------------------------------------

  /** A daemon in a block whose hold is not over, by whole seconds, still owns the row. */
  lemma ActingInTimeIsExclusive(events: seq<Event>, states: seq<Cluster>, i: nat, d: string)
    requires IsRun(events, states) && i < |events| && events[i] == Act(d)
    requires Secs(states[i].now) <= Secs(states[i].daemons[d].until)
    ensures Owns(states[i], d)
  {
    EveryStateIsSound(events, states, i);
    assert Enabled(states[i], events[i]) && DaemonOk(states[i], d);
  }

  /** Exactly when a leader that stalls in a block gets a rival beside it: a standby's
      acquire takes the row, and both are in a block, if and only if the stored second
      in which the leader's hold ends is past. */
  lemma RivalTakesOverIff(events: seq<Event>, states: seq<Cluster>, i: nat, d: string, rival: string, missed: nat)
    requires IsRun(events, states) && i <= |events|
    requires d in states[i].daemons && states[i].daemons[d].phase == Acting && Owns(states[i], d)
    requires rival != d && Enabled(states[i], Acquire(rival, missed))
    ensures var t := Apply(states[i], Acquire(rival, missed));
      && t.daemons[d].phase == Acting
      && (Owns(t, rival) && t.daemons[rival].phase == Acting <==> Secs(states[i].daemons[d].until) < Secs(states[i].now))
      && (Owns(t, d) <==> Secs(states[i].now) <= Secs(states[i].daemons[d].until))
  {
    EveryStateIsSound(events, states, i);
    assert DaemonOk(states[i], d);
  }

  // --- a superseded daemon -------------------------------------------------------------------

  predicate Acquires(e: Event, d: string) { e.Acquire? && e.who == d }

  /** Once the row is another's (or gone), only the daemon's own acquire brings it back. */
  lemma {:induction false} NotOwnedUntilAcquired(events: seq<Event>, states: seq<Cluster>, i: nat, j: nat, d: string)
    requires IsRun(events, states) && i <= j <= |events| && !Owns(states[i], d)
    requires forall m :: i <= m < j ==> !Acquires(events[m], d)
    ensures !Owns(states[j], d)
    decreases j
  {
    if i < j {
      NotOwnedUntilAcquired(events, states, i, j - 1, d);
      assert states[j] == Apply(states[j - 1], events[j - 1]);
    }
  }

  lemma StaysOut(c: Cluster, e: Event, d: string)
    requires Enabled(c, e) && d in c.daemons && c.daemons[d].phase != Acting && !Owns(c, d) && !Acquires(e, d)
    ensures d in Apply(c, e).daemons && Apply(c, e).daemons[d].phase != Acting && !Owns(Apply(c, e), d)
  {
  }

  /** A superseded daemon that is not in the middle of a block stays out of every
      block until it acquires again: its tick loop dispatches nothing. */
  lemma {:induction false} SupersededStaysOut(events: seq<Event>, states: seq<Cluster>, i: nat, j: nat, d: string)
    requires IsRun(events, states) && i <= j <= |events| && !Owns(states[i], d)
    requires d in states[i].daemons && states[i].daemons[d].phase != Acting
    requires forall m :: i <= m < j ==> !Acquires(events[m], d)
    ensures d in states[j].daemons && states[j].daemons[d].phase != Acting && !Owns(states[j], d)
    decreases j
  {
    if i < j {
      SupersededStaysOut(events, states, i, j - 1, d);
      assert Enabled(states[j - 1], events[j - 1]) && states[j] == Apply(states[j - 1], events[j - 1]);
      StaysOut(states[j - 1], events[j - 1], d);
    }
  }

  /** So after another daemon's acquire at step `i`, the superseded one's loop only ever
      acts in the one block it was already in: from its next renewal or sleep on, it
      executes no statement of recovery, planning or the tick loop. */
  lemma SupersededActsOnlyInItsBlock(events: seq<Event>, states: seq<Cluster>, i: nat, k: nat, j: nat, d: string, other: string)
    requires IsRun(events, states) && i < k < j < |events|
    requires Acquires(events[i], other) && other != d && CanAcquire(states[i].row, other, states[i].now)
    requires events[k] == Renew(d) || events[k] == RenewFails(d) || events[k] == Sleep(d)
    requires forall m :: i < m < j ==> !Acquires(events[m], d)
    ensures events[j] != Act(d)
  {
    assert states[i + 1] == Apply(states[i], events[i]);
    NotOwnedUntilAcquired(events, states, i + 1, k, d);
    assert Enabled(states[k], events[k]) && states[k + 1] == Apply(states[k], events[k]);
    NotOwnedUntilAcquired(events, states, i + 1, k + 1, d);
    SupersededStaysOut(events, states, k + 1, j, d);
    assert Enabled(states[j], events[j]);
  }

  /** Its `_run_sequence` tasks are another matter: they go on claiming. How often they
      did between two points of a run. */
  ghost function Replays(events: seq<Event>, i: nat, j: nat, d: string): nat
    requires i <= j <= |events|
  {
    if i == j then 0 else Replays(events, i, j - 1, d) + if events[j - 1] == Replay(d) then 1 else 0
  }

  /** Every such claim uses up one of the fires left to replay. */
  lemma {:induction false} ReplaysAreSpent(events: seq<Event>, states: seq<Cluster>, i: nat, j: nat, d: string)
    requires IsRun(events, states) && i <= j <= |events| && d in states[i].daemons
    requires forall m :: i <= m < j ==> !Acquires(events[m], d)
    ensures d in states[j].daemons
    ensures Replays(events, i, j, d) + states[j].daemons[d].left <= states[i].daemons[d].left
    decreases j
  {
    if i < j {
      ReplaysAreSpent(events, states, i, j - 1, d);
      assert Enabled(states[j - 1], events[j - 1]) && states[j] == Apply(states[j - 1], events[j - 1]);
    }
  }

  predicate IsClaim(e: Event, d: string) { e == Act(d) || e == Replay(d) }

  /** Does the daemon execute a statement that may claim, in this future of the
      cluster, without having acquired the lease before? */
  predicate ClaimsIn(c: Cluster, events: seq<Event>, d: string)
    decreases |events|
  {
    && events != [] && Enabled(c, events[0]) && !Acquires(events[0], d)
    && (IsClaim(events[0], d) || ClaimsIn(Apply(c, events[0]), events[1..], d))
  }

  ghost predicate StillClaims(c: Cluster, d: string) {
    exists events :: ClaimsIn(c, events, d)
  }

  lemma {:induction false} NothingLeftNoClaim(c: Cluster, events: seq<Event>, d: string)
    requires d in c.daemons && c.daemons[d].phase != Acting && !Owns(c, d)
    requires c.daemons[d].left == 0 || c.daemons[d].draining
    ensures !ClaimsIn(c, events, d)
    decreases |events|
  {
    if events != [] && Enabled(c, events[0]) && !Acquires(events[0], d) {
      NothingLeftNoClaim(Apply(c, events[0]), events[1..], d);
    }
  }

  /** A daemon that lost the row and is outside its block still claims in some future,
      without acquiring again, if and only if it has missed fires left to replay and
      nobody told it to drain. */
  lemma SupersededClaimsIff(c: Cluster, d: string)
    requires d in c.daemons && c.daemons[d].phase != Acting && !Owns(c, d)
    ensures StillClaims(c, d) <==> c.daemons[d].left > 0 && !c.daemons[d].draining
  {
    if c.daemons[d].left > 0 && !c.daemons[d].draining {
      var events := [Replay(d)];
      assert ClaimsIn(c, events, d);
    } else {
      forall events
        ensures !ClaimsIn(c, events, d)
      {
        NothingLeftNoClaim(c, events, d);
      }
    }
  }

  // --- what the lease does not give ---------------------------------------------------------

  const FRESH := Daemon(Standby, 0, 0, 0, false)
  const TWO := Cluster(None, 0, map["a" := FRESH, "b" := FRESH], [], 0)

  /** The events one after the other, as long as each is possible. */
  function After(c: Cluster, events: seq<Event>): Option<Cluster>
    decreases |events|
  {
    if events == [] then Some(c)
    else if Enabled(c, events[0]) then After(Apply(c, events[0]), events[1..])
    else None
  }

  lemma AfterNext(c: Cluster, e: Event, rest: seq<Event>)
    requires Enabled(c, e)
    ensures After(c, [e] + rest) == After(Apply(c, e), rest)
  {
    assert ([e] + rest)[1..] == rest;
  }

  /** A leader that stalls inside a block past its time to live is not stopped: with
      the lease gone to another, both are in a block and both dispatch. */
  lemma StalledLeaderStillActs()
    ensures var c := After(TWO, [Acquire("a", 0)] + ([Pass(TTL + MICRO)] + ([Acquire("b", 0)] + [])));
      && c.Some? && Enabled(c.value, Act("a")) && Enabled(c.value, Act("b"))
      && c.value.row == Some(Lease("b", 2, 61))
      && Secs(c.value.daemons["a"].until) < Secs(c.value.now)
  {
    var c1 := Apply(TWO, Acquire("a", 0));
    var c2 := Apply(c1, Pass(TTL + MICRO));
    AfterNext(c2, Acquire("b", 0), []);
    AfterNext(c1, Pass(TTL + MICRO), [Acquire("b", 0)] + []);
    AfterNext(TWO, Acquire("a", 0), [Pass(TTL + MICRO)] + ([Acquire("b", 0)] + []));
  }

  /** A leader with two missed fires to replay sleeps past its lease, another acquires,
      its renewal fails and it stands by; it still claims, beside the new leader. */
  lemma SupersededStillClaims()
    ensures var c := After(TWO, [Acquire("a", 2)] + ([Sleep("a")] + ([Pass(TTL + MICRO)] + ([Acquire("b", 0)] + ([Renew("a")] + [])))));
      && c.Some? && "a" in c.value.daemons && c.value.daemons["a"].phase == Standby && Owns(c.value, "b")
      && Enabled(c.value, Replay("a")) && Enabled(c.value, Act("b"))
  {
    var c1 := Apply(TWO, Acquire("a", 2));
    var c2 := Apply(c1, Sleep("a"));
    var c3 := Apply(c2, Pass(TTL + MICRO));
    var c4 := Apply(c3, Acquire("b", 0));
    var e4 := [Renew("a")] + [];
    var e3 := [Acquire("b", 0)] + e4;
    var e2 := [Pass(TTL + MICRO)] + e3;
    AfterNext(c4, Renew("a"), []);
    AfterNext(c3, Acquire("b", 0), e4);
    AfterNext(c2, Pass(TTL + MICRO), e3);
    AfterNext(c1, Sleep("a"), e2);
    AfterNext(TWO, Acquire("a", 2), [Sleep("a")] + e2);
  }

  // --- fences -------------------------------------------------------------------------------

  predicate Wins(events: seq<Event>, states: seq<Cluster>, i: nat)
    requires i < |events| && i < |states|
  {
    events[i].Acquire? && CanAcquire(states[i].row, events[i].who, states[i].now)
  }

  predicate Deletes(events: seq<Event>, states: seq<Cluster>, i: nat)
    requires i < |events| && i < |states|
  {
    events[i].Release? && Owns(states[i], events[i].who)
  }

  /** The fences that the acquires won among the first `n` events were given. */
  ghost function Fences(events: seq<Event>, states: seq<Cluster>, n: nat): seq<int>
    requires IsRun(events, states) && n <= |events|
  {
    if n == 0 then []
    else if Wins(events, states, n - 1)
    then Fences(events, states, n - 1) + [if states[n].row.Some? then states[n].row.value.fence else 0]
    else Fences(events, states, n - 1)
  }

  ghost predicate Rising(s: seq<int>) {
    forall i, j :: 0 <= i < j < |s| ==> s[i] < s[j]
  }

  /** Does an acquire follow a release that deleted the row? */
  ghost predicate Reborn(events: seq<Event>, states: seq<Cluster>, n: nat)
    requires IsRun(events, states) && n <= |events|
  {
    exists i, j :: 0 <= i < j < n && Deletes(events, states, i) && Wins(events, states, j)
  }

  /** As long as nothing deletes the row, the fences are 1, 2, 3, … */
  lemma {:induction false} FencesCount(events: seq<Event>, states: seq<Cluster>, n: nat)
    requires IsRun(events, states) && n <= |events|
    requires forall i :: 0 <= i < n ==> !Deletes(events, states, i)
    ensures states[n].wins == |Fences(events, states, n)|
    ensures forall t :: 0 <= t < |Fences(events, states, n)| ==> Fences(events, states, n)[t] == t + 1
  {
    if n > 0 {
      FencesCount(events, states, n - 1);
      EveryStateIsSound(events, states, n - 1);
      assert Enabled(states[n - 1], events[n - 1]) && states[n] == Apply(states[n - 1], events[n - 1]);
      assert !Deletes(events, states, n - 1);
    }
  }

  /** Every fence is at least 1, and a row that is or was there was acquired. */
  lemma {:induction false} FencesExist(events: seq<Event>, states: seq<Cluster>, n: nat)
    requires IsRun(events, states) && n <= |events|
    ensures forall f :: f in Fences(events, states, n) ==> f >= 1
    ensures states[n].row.Some? ==> Fences(events, states, n) != [] && states[n].row.value.fence >= 1
  {
    if n > 0 {
      FencesExist(events, states, n - 1);
      assert states[n] == Apply(states[n - 1], events[n - 1]);
    }
  }

  lemma {:induction false} FencesGrow(events: seq<Event>, states: seq<Cluster>, m: nat, n: nat)
    requires IsRun(events, states) && m <= n <= |events|
    ensures Fences(events, states, m) <= Fences(events, states, n)
    decreases n
  {
    if m < n {
      FencesGrow(events, states, m, n - 1);
    }
  }

  lemma {:induction false} DeletedUntilWon(events: seq<Event>, states: seq<Cluster>, i: nat, n: nat)
    requires IsRun(events, states) && i < n <= |events| && Deletes(events, states, i)
    requires forall j :: i < j < n ==> !Wins(events, states, j)
    ensures states[n].row == None
    decreases n
  {
    assert states[n] == Apply(states[n - 1], events[n - 1]);
    if i < n - 1 {
      DeletedUntilWon(events, states, i, n - 1);
      assert !Wins(events, states, n - 1);
    }
  }

  lemma StillNotRising(s: seq<int>, longer: seq<int>)
    requires s <= longer && !Rising(s)
    ensures !Rising(longer)
  {
    var i, j :| 0 <= i < j < |s| && s[i] >= s[j];
    assert longer[i] == s[i] && longer[j] == s[j];
  }

  lemma EndsNotAbove(s: seq<int>, last: int)
    requires s != [] && s[0] >= last
    ensures !Rising(s + [last])
  {
    assert (s + [last])[0] == s[0] && (s + [last])[|s|] == last;
  }

  /** The first acquire after a deletion gets fence 1 again. */
  lemma FirstWinAfterDelete(events: seq<Event>, states: seq<Cluster>, i: nat, n: nat)
    requires IsRun(events, states) && i < n < |events| && Deletes(events, states, i) && Wins(events, states, n)
    requires forall j :: i < j < n ==> !Wins(events, states, j)
    ensures !Rising(Fences(events, states, n + 1))
  {
    DeletedUntilWon(events, states, i, n);
    assert states[n + 1] == Apply(states[n], events[n]);
    FencesExist(events, states, i);
    FencesGrow(events, states, i, n);
    FencesExist(events, states, n);
    var fences := Fences(events, states, n);
    assert fences[0] in fences;
    EndsNotAbove(fences, 1);
  }

  lemma {:induction false} FirstWin(events: seq<Event>, states: seq<Cluster>, i: nat, j: nat) returns (m: nat)
    requires |states| == |events| + 1 && i < j < |events| && Wins(events, states, j)
    ensures i < m <= j && Wins(events, states, m) && forall t :: i < t < m ==> !Wins(events, states, t)
    decreases j - i
  {
    if i + 1 == j || Wins(events, states, i + 1) {
      m := i + 1;
    } else {
      m := FirstWin(events, states, i + 1, j);
    }
  }

  lemma RebornAt(events: seq<Event>, states: seq<Cluster>, i: nat, j: nat, n: nat)
    requires IsRun(events, states) && i < j < n <= |events| && Deletes(events, states, i) && Wins(events, states, j)
    ensures !Rising(Fences(events, states, n))
  {
    var m := FirstWin(events, states, i, j);
    FirstWinAfterDelete(events, states, i, m);
    FencesGrow(events, states, m + 1, n);
    StillNotRising(Fences(events, states, m + 1), Fences(events, states, n));
  }

  lemma {:induction false} UnbornIsRising(events: seq<Event>, states: seq<Cluster>, n: nat)
    requires IsRun(events, states) && n <= |events| && !Reborn(events, states, n)
    ensures Rising(Fences(events, states, n))
  {
    if n > 0 {
      assert !Reborn(events, states, n - 1);
      if Wins(events, states, n - 1) {
        forall i | 0 <= i < n
          ensures !Deletes(events, states, i)
        {
          assert i < n - 1 && Deletes(events, states, i) ==> Reborn(events, states, n);
        }
        FencesCount(events, states, n);
      } else {
        UnbornIsRising(events, states, n - 1);
      }
    }
  }

  /** The fences of a run rise from each won acquire to the next if and only if no
      acquire follows a release that deleted the row. */
  lemma FencesRiseIff(events: seq<Event>, states: seq<Cluster>, n: nat)
    requires IsRun(events, states) && n <= |events|
    ensures Rising(Fences(events, states, n)) <==> !Reborn(events, states, n)
  {
    if Reborn(events, states, n) {
      var i, j :| 0 <= i < j < n && Deletes(events, states, i) && Wins(events, states, j);
      RebornAt(events, states, i, j, n);
    } else {
      UnbornIsRising(events, states, n);
    }
  }

  /** A release deletes the row, so the fence starts over: it is not a token that
      grows for ever. */
  lemma FenceRestarts(row: Slot, d: string, e: string, now: int)
    requires row.Some? && row.value.holder == d
    ensures Acquired(Released(row, d), e, now, TTL) == Some(Lease(e, 1, Secs(now + TTL)))
  {
  }
}
