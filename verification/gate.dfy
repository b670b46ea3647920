/** The trigger gate: what `_dispatch_triggered` decides for a job with upstreams. */
module Gate {
  import opened Models
  import opened Tables

  /** What one upstream contributes to the decision. */
  datatype Verdict = Fresh(fire: int) | Broken(fire: int) | Quiet

  datatype Decision = Blocked(upstream: string, fire: int) | Go(fire: int) | Wait

  predicate Newer(fire: int, last: Option<int>) {
    last.None? || fire > last.value
  }

  /** A success newer than the job's own last fire; else a newest run that failed
      after it; else nothing new. */
  ghost function Judge(runs: Runs, last: Option<int>, upstream: string): Verdict {
    var ok := LastSuccess(runs, upstream);
    if ok.Some? && Newer(ok.value, last) then Fresh(ok.value)
    else
      var lr := LastRun(runs, upstream);
      if lr.Some? && Failure(runs[lr.value].state) && Newer(lr.value.fire, last)
      then Broken(lr.value.fire)
      else Quiet
  }

  /** The three accumulators of the loop over the upstreams. */
  datatype Tally = Tally(readyAt: Option<int>, failed: Option<(string, int)>, pending: bool)

  function Count(t: Tally, upstream: string, v: Verdict): Tally {
    match v
    case Fresh(fire) =>
      t.(readyAt := Some(if t.readyAt.Some? && t.readyAt.value >= fire then t.readyAt.value else fire))
    case Broken(fire) => t.(failed := Some((upstream, fire)))
    case Quiet => t.(pending := true)
  }

  ghost function TallyOf(runs: Runs, last: Option<int>, ups: seq<string>): Tally {
    if ups == [] then Tally(None, None, false)
    else
      var n := |ups| - 1;
      Count(TallyOf(runs, last, ups[..n]), ups[n], Judge(runs, last, ups[n]))
  }

  function Decide(t: Tally): Decision {
    if t.failed.Some? then Blocked(t.failed.value.0, t.failed.value.1)
    else if t.pending || t.readyAt.None? then Wait
    else Go(t.readyAt.value)
  }

  ghost function GateOf(runs: Runs, last: Option<int>, ups: seq<string>): Decision {
    Decide(TallyOf(runs, last, ups))
  }

  lemma InLast(ups: seq<string>)
    requires ups != []
    ensures forall up :: up in ups <==> up in ups[..|ups| - 1] || up == ups[|ups| - 1]
  {
    assert ups == ups[..|ups| - 1] + [ups[|ups| - 1]];
  }

  /** The failure the fold remembers is the last broken upstream, if any is. */
  lemma {:induction false} FailedMeans(runs: Runs, last: Option<int>, ups: seq<string>)
    ensures var f := TallyOf(runs, last, ups).failed;
      && (f.None? ==> forall up :: up in ups ==> !Judge(runs, last, up).Broken?)
      && (f.Some? ==> f.value.0 in ups && Judge(runs, last, f.value.0) == Broken(f.value.1))
  {
    if ups != [] {
      FailedMeans(runs, last, ups[..|ups| - 1]);
      InLast(ups);
    }
  }

  /** How the last upstream in the list changes the failure remembered. */
  lemma FailedNext(runs: Runs, last: Option<int>, ups: seq<string>)
    requires ups != []
    ensures var n := |ups| - 1;
      var v := Judge(runs, last, ups[n]);
      TallyOf(runs, last, ups).failed == if v.Broken? then Some((ups[n], v.fire)) else TallyOf(runs, last, ups[..n]).failed
  {
  }

  ghost predicate IsLastBroken(runs: Runs, last: Option<int>, ups: seq<string>, i: nat) {
    && i < |ups| && Judge(runs, last, ups[i]).Broken?
    && forall j :: i < j < |ups| ==> !Judge(runs, last, ups[j]).Broken?
  }

  lemma StillLastBroken(runs: Runs, last: Option<int>, ups: seq<string>, i: nat)
    requires ups != [] && IsLastBroken(runs, last, ups[..|ups| - 1], i) && !Judge(runs, last, ups[|ups| - 1]).Broken?
    ensures IsLastBroken(runs, last, ups, i) && ups[..|ups| - 1][i] == ups[i]
  {
    assert forall j :: 0 <= j < |ups| - 1 ==> ups[..|ups| - 1][j] == ups[j];
  }

  /** With several broken upstreams, it is the last one in the list. */
  lemma {:induction false} FailedIsLast(runs: Runs, last: Option<int>, ups: seq<string>) returns (i: nat)
    requires TallyOf(runs, last, ups).failed.Some?
    ensures IsLastBroken(runs, last, ups, i)
    ensures TallyOf(runs, last, ups).failed == Some((ups[i], Judge(runs, last, ups[i]).fire))
  {
    FailedNext(runs, last, ups);
    if Judge(runs, last, ups[|ups| - 1]).Broken? {
      i := |ups| - 1;
    } else {
      i := FailedIsLast(runs, last, ups[..|ups| - 1]);
      StillLastBroken(runs, last, ups, i);
    }
  }

  lemma {:induction false} PendingMeans(runs: Runs, last: Option<int>, ups: seq<string>)
    ensures TallyOf(runs, last, ups).pending <==> exists up :: up in ups && Judge(runs, last, up).Quiet?
  {
    if ups != [] {
      PendingMeans(runs, last, ups[..|ups| - 1]);
      InLast(ups);
    }
  }

  /** The fire the fold is ready at is the newest fresh success. */
  lemma {:induction false} ReadyMeans(runs: Runs, last: Option<int>, ups: seq<string>)
    ensures var r := TallyOf(runs, last, ups).readyAt;
      && (r.Some? ==> exists up :: up in ups && Judge(runs, last, up) == Fresh(r.value))
      && (forall up :: up in ups && Judge(runs, last, up).Fresh? ==>
            r.Some? && Judge(runs, last, up).fire <= r.value)
  {
    if ups != [] {
      ReadyMeans(runs, last, ups[..|ups| - 1]);
      InLast(ups);
    }
  }

  lemma BlockedMeans(runs: Runs, last: Option<int>, ups: seq<string>)
    ensures var d := GateOf(runs, last, ups);
      && (d.Blocked? <==> exists up :: up in ups && Judge(runs, last, up).Broken?)
      && (d.Blocked? ==> d.upstream in ups && Judge(runs, last, d.upstream) == Broken(d.fire))
  {
    FailedMeans(runs, last, ups);
  }

  lemma GoMeans(runs: Runs, last: Option<int>, ups: seq<string>)
    ensures var d := GateOf(runs, last, ups);
      && (d.Go? <==> ups != [] && forall up :: up in ups ==> Judge(runs, last, up).Fresh?)
      && (d.Go? ==> exists up :: up in ups && Judge(runs, last, up) == Fresh(d.fire))
      && (d.Go? ==> forall up :: up in ups ==> Judge(runs, last, up).Fresh? && Judge(runs, last, up).fire <= d.fire)
  {
    FailedMeans(runs, last, ups);
    PendingMeans(runs, last, ups);
    ReadyMeans(runs, last, ups);
    var d := GateOf(runs, last, ups);
    if d.Go? {
      forall up | up in ups
        ensures Judge(runs, last, up).Fresh?
      {
        assert !Judge(runs, last, up).Broken? && !Judge(runs, last, up).Quiet?;
      }
    }
    if ups != [] && forall up :: up in ups ==> Judge(runs, last, up).Fresh? {
      assert ups[0] in ups && Judge(runs, last, ups[0]).Fresh?;
    }
  }

  lemma FreshIsNewestSuccess(runs: Runs, last: Option<int>, up: string)
    ensures Judge(runs, last, up).Fresh? ==> LastSuccess(runs, up) == Some(Judge(runs, last, up).fire)
  {
  }

  /** The decision the gate takes, without the fold: blocked as soon as one
      upstream is broken, and by a broken one; go only when there is an upstream
      and every one is fresh, at the newest of their newest successes. */
  lemma GateMeans(runs: Runs, last: Option<int>, ups: seq<string>)
    ensures var d := GateOf(runs, last, ups);
      && (d.Blocked? <==> exists up :: up in ups && Judge(runs, last, up).Broken?)
      && (d.Blocked? ==> d.upstream in ups && Judge(runs, last, d.upstream) == Broken(d.fire))
      && (d.Go? <==> ups != [] && forall up :: up in ups ==> Judge(runs, last, up).Fresh?)
      && (d.Go? ==> exists up :: up in ups && LastSuccess(runs, up) == Some(d.fire))
      && (d.Go? ==> forall up :: up in ups ==>
            LastSuccess(runs, up).Some? && LastSuccess(runs, up).value <= d.fire)
  {
    BlockedMeans(runs, last, ups);
    GoMeans(runs, last, ups);
    if GateOf(runs, last, ups).Go? {
      forall up | up in ups
        ensures LastSuccess(runs, up) == Some(Judge(runs, last, up).fire)
      {
        FreshIsNewestSuccess(runs, last, up);
      }
    }
  }

  // --- the same on the rows ------------------------------------------------------------

  /** A success of the upstream that is newer than the job's own last fire. */
  predicate FreshRow(runs: Runs, last: Option<int>, upstream: string, k: Key) {
    k in runs && k.job == upstream && runs[k].state == Succeeded && (last.None? || k.fire > last.value)
  }

  ghost predicate HasFresh(runs: Runs, last: Option<int>, upstream: string) {
    exists k :: FreshRow(runs, last, upstream, k)
  }

  /** The newest run of the upstream, a failure newer than the job's own last fire. */
  ghost predicate FailedRow(runs: Runs, last: Option<int>, upstream: string, k: Key) {
    && IsLastRun(runs, upstream, k) && (last.None? || k.fire > last.value)
    && (runs[k].state == Failed || runs[k].state == TimedOut || runs[k].state == Lost)
  }

  /** No new success, and the newest run is a new failure. */
  ghost predicate HasFailed(runs: Runs, last: Option<int>, upstream: string) {
    !HasFresh(runs, last, upstream) && exists k :: FailedRow(runs, last, upstream, k)
  }

  /** Of the upstreams that have failed, the last one in the list. */
  ghost predicate BlocksOn(runs: Runs, last: Option<int>, ups: seq<string>, upstream: string) {
    exists i :: 0 <= i < |ups| && ups[i] == upstream && HasFailed(runs, last, ups[i])
             && forall j :: i < j < |ups| ==> !HasFailed(runs, last, ups[j])
  }

  lemma JudgeOnRows(runs: Runs, last: Option<int>, up: string)
    ensures Judge(runs, last, up).Fresh? <==> HasFresh(runs, last, up)
    ensures Judge(runs, last, up).Broken? <==> HasFailed(runs, last, up)
    ensures Judge(runs, last, up).Fresh? ==> exists k :: FreshRow(runs, last, up, k) && k.fire == Judge(runs, last, up).fire
    ensures Judge(runs, last, up).Fresh? ==> forall k :: FreshRow(runs, last, up, k) ==> k.fire <= Judge(runs, last, up).fire
    ensures Judge(runs, last, up).Broken? ==> exists k :: FailedRow(runs, last, up, k) && k.fire == Judge(runs, last, up).fire
  {
    var ok := LastSuccess(runs, up);
    if ok.Some? {
      var k :| k in runs && k.job == up && k.fire == ok.value && runs[k].state == Succeeded;
      assert FreshRow(runs, last, up, k) <==> Newer(ok.value, last);
    }
    var lr := LastRun(runs, up);
    assert forall k :: FailedRow(runs, last, up, k) ==> lr.Some? && k == lr.value;
    assert lr.Some? ==> (FailedRow(runs, last, up, lr.value) <==> Failure(runs[lr.value].state) && Newer(lr.value.fire, last));
  }

  /** The gate on the rows: go if there are upstreams and each has a success newer than the
      job's own last fire, at the newest of those; blocked if some upstream has none and
      its newest run is a failure newer than that; else wait. */
  lemma GateOnRows(runs: Runs, last: Option<int>, ups: seq<string>)
    ensures var d := GateOf(runs, last, ups);
      && (d.Go? <==> ups != [] && forall up :: up in ups ==> HasFresh(runs, last, up))
      && (d.Go? ==> exists k: Key :: k.job in ups && FreshRow(runs, last, k.job, k) && k.fire == d.fire)
      && (d.Go? ==> forall k: Key :: k.job in ups && FreshRow(runs, last, k.job, k) ==> k.fire <= d.fire)
      && (d.Blocked? <==> exists up :: up in ups && HasFailed(runs, last, up))
      && (d.Blocked? ==> exists k :: FailedRow(runs, last, d.upstream, k) && k.fire == d.fire)
      && (d.Blocked? ==> BlocksOn(runs, last, ups, d.upstream))
  {
    forall up
      ensures Judge(runs, last, up).Fresh? <==> HasFresh(runs, last, up)
      ensures Judge(runs, last, up).Broken? <==> HasFailed(runs, last, up)
    {
      JudgeOnRows(runs, last, up);
    }
    BlockedMeans(runs, last, ups);
    GoMeans(runs, last, ups);
    var d := GateOf(runs, last, ups);
    if d.Blocked? {
      var i := FailedIsLast(runs, last, ups);
      assert d.upstream == ups[i];
      JudgeOnRows(runs, last, d.upstream);
    }
    if d.Go? {
      var up :| up in ups && Judge(runs, last, up) == Fresh(d.fire);
      JudgeOnRows(runs, last, up);
      forall k: Key | k.job in ups && FreshRow(runs, last, k.job, k)
        ensures k.fire <= d.fire
      {
        JudgeOnRows(runs, last, k.job);
      }
    }
  }

  /** Once the job's own last fire has caught up with the upstreams' newest successes and
      newest runs, the gate waits. */
  lemma CaughtUpWaits(runs: Runs, last: int, ups: seq<string>)
    requires forall k :: k in runs && k.job in ups && (runs[k].state == Succeeded || IsLastRun(runs, k.job, k)) ==> k.fire <= last
    ensures GateOf(runs, Some(last), ups) == Wait
  {
    GateOnRows(runs, Some(last), ups);
    assert forall up :: up in ups ==> !HasFresh(runs, Some(last), up);
    assert forall up, k :: up in ups ==> !FailedRow(runs, Some(last), up, k);
    assert ups != [] ==> ups[0] in ups;
  }

  /** A fire the gate lets through is the fire of an upstream row that succeeded. */
  lemma GoHasWitness(runs: Runs, last: Option<int>, ups: seq<string>) returns (up: Key)
    requires GateOf(runs, last, ups).Go?
    ensures up in runs && up.job in ups && up.fire == GateOf(runs, last, ups).fire && runs[up].state == Succeeded
  {
    GateMeans(runs, last, ups);
    var fire := GateOf(runs, last, ups).fire;
    var name :| name in ups && LastSuccess(runs, name) == Some(fire);
    up :| up in runs && up.job == name && up.fire == fire && runs[up].state == Succeeded;
  }

  /** A fire the gate blocks on is the newest fire of the upstream it names, whose
      newest attempt failed: no later attempt of that fire exists. */
  lemma BlockedHasWitness(runs: Runs, last: Option<int>, ups: seq<string>) returns (up: Key)
    requires GateOf(runs, last, ups).Blocked?
    ensures var d := GateOf(runs, last, ups);
      && up in runs && up.job == d.upstream && up.job in ups && up.fire == d.fire
      && Failure(runs[up].state) && IsLastRun(runs, up.job, up) && up.Next() !in runs
  {
    GateMeans(runs, last, ups);
    up := LastRun(runs, GateOf(runs, last, ups).upstream).value;
  }
}
