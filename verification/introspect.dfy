/** The read-only explanation of `introspect.py`: what `_upstream_status` tells an
    operator about a triggered job, next to what the daemon's gate would do. */
module Introspect {
  import opened Models
  import opened Tables
  import opened Gate

  datatype Readiness = UpReady | UpFailed | UpPending

  datatype Upstream = Upstream(job: string, readiness: Readiness, lastSuccess: Option<int>, lastRunState: Option<RunState>)

  datatype TriggerState = TriggerBlocked | TriggerReady | TriggerWaiting

  /** What the explanation says about one upstream, in terms of the store. */
  ghost predicate Explains(u: Upstream, runs: Runs, last: Option<int>, upstream: string) {
    && u.job == upstream
    && u.lastSuccess == LastSuccess(runs, upstream)
    && u.lastRunState == StateOfNewest(runs, upstream)
    && u.readiness == match Judge(runs, last, upstream)
       case Fresh(_) => UpReady
       case Broken(_) => UpFailed
       case Quiet => UpPending
  }

  ghost function StateOfNewest(runs: Runs, job: string): Option<RunState> {
    var key := LastRun(runs, job);
    if key.Some? then Some(runs[key.value].state) else None
  }

  /** `_upstream_status`. It says blocked, ready or waiting exactly when the daemon's
      gate would take its failed, claim or continue branch on the same store, and when
      it says ready, the fire to be claimed is the newest success it lists. */
  method UpstreamStatus(job: Job, store: Store) returns (overall: TriggerState, ups: seq<Upstream>)
    ensures |ups| == |job.after|
    ensures var last := StateOf(store.clock, job.name).lastFire;
      forall i :: 0 <= i < |ups| ==> Explains(ups[i], store.runs, last, job.after[i])
    ensures Agrees(overall, GateOf(store.runs, StateOf(store.clock, job.name).lastFire, job.after))
    ensures overall.TriggerReady? ==>
              ups != [] && NewestOf(ups, GateOf(store.runs, StateOf(store.clock, job.name).lastFire, job.after).fire)
    ensures var last := StateOf(store.clock, job.name).lastFire;
      && (overall.TriggerReady? <==> job.after != [] && forall up :: up in job.after ==> HasFresh(store.runs, last, up))
      && (overall.TriggerBlocked? <==> exists up :: up in job.after && HasFailed(store.runs, last, up))
      && forall i :: 0 <= i < |ups| ==>
           && (ups[i].readiness == UpReady <==> HasFresh(store.runs, last, job.after[i]))
           && (ups[i].readiness == UpFailed <==> HasFailed(store.runs, last, job.after[i]))
  {
    var last := StateOf(store.clock, job.name).lastFire;
    ups := [];
    for i := 0 to |job.after|
      invariant |ups| == i
      invariant forall k :: 0 <= k < i ==> Explains(ups[k], store.runs, last, job.after[k])
    {
      var u := StatusOf(job.after[i], last, store);
      ups := ups + [u];
    }
    if exists i :: 0 <= i < |ups| && ups[i].readiness.UpFailed? {
      overall := TriggerBlocked;
    } else if ups != [] && forall i :: 0 <= i < |ups| ==> ups[i].readiness.UpReady? {
      overall := TriggerReady;
    } else {
      overall := TriggerWaiting;
    }
    SummaryAgrees(store.runs, last, job.after, ups, overall);
    GateOnRows(store.runs, last, job.after);
    forall i | 0 <= i < |ups|
      ensures ups[i].readiness == UpReady <==> HasFresh(store.runs, last, job.after[i])
      ensures ups[i].readiness == UpFailed <==> HasFailed(store.runs, last, job.after[i])
    {
      JudgeOnRows(store.runs, last, job.after[i]);
    }
  }

  /** The part of the loop that judges one upstream. */
  method StatusOf(upstream: string, last: Option<int>, store: Store) returns (u: Upstream)
    ensures Explains(u, store.runs, last, upstream)
  {
    var ok := store.LastSuccessFire(upstream);
    var newest := store.NewestRun(upstream);
    var state := if newest.Some? then Some(store.runs[newest.value].state) else None;
    if ok.Some? && Newer(ok.value, last) {
      u := Upstream(upstream, UpReady, ok, state);
    } else if newest.Some? && Failure(state.value) && Newer(newest.value.fire, last) {
      u := Upstream(upstream, UpFailed, ok, state);
    } else {
      u := Upstream(upstream, UpPending, ok, state);
    }
  }

  predicate Agrees(t: TriggerState, d: Decision) {
    match d
    case Blocked(_, _) => t.TriggerBlocked?
    case Go(_) => t.TriggerReady?
    case Wait => t.TriggerWaiting?
  }

  /** `fire` is the newest of the successes listed, and every upstream lists one. */
  predicate NewestOf(ups: seq<Upstream>, fire: int) {
    && (exists i :: 0 <= i < |ups| && ups[i].lastSuccess == Some(fire))
    && (forall i :: 0 <= i < |ups| ==> ups[i].lastSuccess.Some? && ups[i].lastSuccess.value <= fire)
  }

  /** The overall verdict, which quantifies over the list, is the decision of the
      daemon's fold with its three accumulators. */
  lemma SummaryAgrees(runs: Runs, last: Option<int>, after: seq<string>, ups: seq<Upstream>, overall: TriggerState)
    requires |ups| == |after| && forall i :: 0 <= i < |ups| ==> Explains(ups[i], runs, last, after[i])
    requires overall.TriggerBlocked? <==> exists i :: 0 <= i < |ups| && ups[i].readiness.UpFailed?
    requires overall.TriggerReady? <==>
               !overall.TriggerBlocked? && ups != [] && forall i :: 0 <= i < |ups| ==> ups[i].readiness.UpReady?
    ensures Agrees(overall, GateOf(runs, last, after))
    ensures overall.TriggerReady? ==> ups != [] && NewestOf(ups, GateOf(runs, last, after).fire)
  {
    GateMeans(runs, last, after);
    assert forall i :: 0 <= i < |ups| ==> after[i] in after;
  }
}
