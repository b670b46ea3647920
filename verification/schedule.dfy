/** Fires of a schedule (`schedule.py`), and how catch-up and the tick loop share them.

    A cron expression in its time zone is an abstract stream of instants: `next(t)`
    is the least fire after `t`, and `wall` the wall-clock reading of an instant. */
module Schedule {
  import opened Models

  datatype Cron = Cron(next: int -> int, wall: int -> int)

  /** `next` is "least element after" of one set of instants. */
  ghost predicate IsCron(c: Cron) {
    && (forall t :: c.next(t) > t)
    && (forall t, u :: t <= u < c.next(t) ==> c.next(u) == c.next(t))
  }

  ghost predicate IsFire(c: Cron, x: int) { c.next(x - 1) == x }

  /** No wall-clock reading is shown twice: the stream meets no autumn fold. */
  ghost predicate NoRepeatedSlots(c: Cron) {
    forall x, y :: IsFire(c, x) && IsFire(c, y) && c.wall(x) == c.wall(y) ==> x == y
  }

  /** The fires in (start, end], in order. */
  ghost function FiresIn(c: Cron, start: int, end: int): (fires: seq<int>)
    requires IsCron(c)
    decreases end - start
  {
    var first := c.next(start);
    if first > end then [] else [first] + FiresIn(c, first, end)
  }

  ghost predicate Increasing(s: seq<int>) {
    forall i, j :: 0 <= i < j < |s| ==> s[i] < s[j]
  }

  lemma PrependIncreasing(x: int, rest: seq<int>)
    requires Increasing(rest) && forall y :: y in rest ==> x < y
    ensures Increasing([x] + rest)
  {
    var s := [x] + rest;
    forall i, j | 0 <= i < j < |s|
      ensures s[i] < s[j]
    {
      assert s[j] == rest[j - 1] && rest[j - 1] in rest;
      if i > 0 { assert s[i] == rest[i - 1]; }
    }
  }

  lemma {:induction false} FiresInMeans(c: Cron, start: int, end: int)
    requires IsCron(c)
    ensures Increasing(FiresIn(c, start, end))
    ensures forall x :: x in FiresIn(c, start, end) <==> start < x <= end && IsFire(c, x)
    decreases end - start
  {
    var first := c.next(start);
    assert c.next(first - 1) == first;
    if first <= end {
      FiresInMeans(c, first, end);
      PrependIncreasing(first, FiresIn(c, first, end));
    }
    forall x
      ensures x in FiresIn(c, start, end) <==> start < x <= end && IsFire(c, x)
    {
      if start < x < first {
        assert c.next(x - 1) == first;
      }
    }
  }

  /** A stretch of time split anywhere splits its fires. */
  lemma {:induction false} FiresSplit(c: Cron, start: int, mid: int, end: int)
    requires IsCron(c) && start <= mid <= end
    ensures FiresIn(c, start, end) == FiresIn(c, start, mid) + FiresIn(c, mid, end)
    decreases end - start
  {
    var first := c.next(start);
    if first <= mid {
      FiresSplit(c, first, mid, end);
    } else {
      assert c.next(mid) == first;
    }
  }

  /** Wall-clock de-duplication: a fire on the slot last kept is dropped. */
  function Once(c: Cron, fires: seq<int>): seq<int> {
    if fires == [] then []
    else
      var kept := Once(c, fires[..|fires| - 1]);
      var x := fires[|fires| - 1];
      if kept != [] && c.wall(kept[|kept| - 1]) == c.wall(x) then kept else kept + [x]
  }

  lemma {:induction false} OnceIsSubset(c: Cron, fires: seq<int>)
    ensures forall x :: x in Once(c, fires) ==> x in fires
  {
    if fires != [] {
      OnceIsSubset(c, fires[..|fires| - 1]);
    }
  }

  lemma {:induction false} OnceIsOrdered(c: Cron, fires: seq<int>)
    requires Increasing(fires)
    ensures Increasing(Once(c, fires))
  {
    if fires != [] {
      var n := |fires| - 1;
      OnceIsOrdered(c, fires[..n]);
      OnceIsSubset(c, fires[..n]);
      var kept := Once(c, fires[..n]);
      forall i | 0 <= i < |kept|
        ensures kept[i] < fires[n]
      {
        assert kept[i] in kept && kept[i] in fires[..n];
      }
    }
  }

  lemma {:induction false} OnceEndsOnNewestSlot(c: Cron, fires: seq<int>)
    ensures var kept := Once(c, fires);
      && (forall i :: 0 < i < |kept| ==> c.wall(kept[i - 1]) != c.wall(kept[i]))
      && (fires != [] ==> kept != [] && c.wall(kept[|kept| - 1]) == c.wall(fires[|fires| - 1]))
  {
    if fires != [] {
      OnceEndsOnNewestSlot(c, fires[..|fires| - 1]);
    }
  }

  /** Dedup keeps a subset, in order, drops only repeats of the slot before, and
      always keeps the slot of the newest fire. */
  lemma OnceMeans(c: Cron, fires: seq<int>)
    requires Increasing(fires)
    ensures var kept := Once(c, fires);
      && Increasing(kept)
      && (forall x :: x in kept ==> x in fires)
      && (forall i :: 0 < i < |kept| ==> c.wall(kept[i - 1]) != c.wall(kept[i]))
      && (fires != [] ==> kept != [] && c.wall(kept[|kept| - 1]) == c.wall(fires[|fires| - 1]))
  {
    OnceIsSubset(c, fires);
    OnceIsOrdered(c, fires);
    OnceEndsOnNewestSlot(c, fires);
  }

  /** Nothing is dropped from fires that repeat no slot. */
  lemma {:induction false} OnceKeepsAll(c: Cron, fires: seq<int>)
    requires forall i :: 0 < i < |fires| ==> c.wall(fires[i - 1]) != c.wall(fires[i])
    ensures Once(c, fires) == fires
  {
    if fires != [] {
      OnceKeepsAll(c, fires[..|fires| - 1]);
    }
  }

  lemma OnceIsIdentity(c: Cron, start: int, end: int)
    requires IsCron(c) && NoRepeatedSlots(c)
    ensures Once(c, FiresIn(c, start, end)) == FiresIn(c, start, end)
  {
    var fires := FiresIn(c, start, end);
    FiresInMeans(c, start, end);
    forall i | 0 < i < |fires|
      ensures c.wall(fires[i - 1]) != c.wall(fires[i])
    {
      assert fires[i - 1] in fires && fires[i] in fires;
      assert IsFire(c, fires[i - 1]) && IsFire(c, fires[i]);
    }
    OnceKeepsAll(c, fires);
  }

  lemma SeenNext(c: Cron, seen: seq<int>, last: int, end: int)
    requires IsCron(c) && c.next(last) <= end
    ensures var x := c.next(last);
      && seen + FiresIn(c, last, end) == (seen + [x]) + FiresIn(c, x, end)
      && (seen + [x])[..|seen|] == seen
  {
  }

  /** `fires_between`: all fires in (start, end], consecutive repeats of a wall-clock slot
      dropped. */
  method FiresBetween(c: Cron, start: int, end: int) returns (fires: seq<int>)
    requires IsCron(c)
    ensures fires == Once(c, FiresIn(c, start, end))
  {
    fires := [];
    var lastWall: Option<int> := None;
    var cursor := c.next(start);
    ghost var seen: seq<int> := [];
    ghost var last := start;
    while cursor <= end
      invariant cursor == c.next(last)
      invariant FiresIn(c, start, end) == seen + FiresIn(c, last, end)
      invariant fires == Once(c, seen)
      invariant lastWall == if fires == [] then None else Some(c.wall(fires[|fires| - 1]))
      decreases end - cursor
    {
      SeenNext(c, seen, last, end);
      seen := seen + [cursor];
      var wall := c.wall(cursor);
      if lastWall != Some(wall) {
        lastWall := Some(wall);
        fires := fires + [cursor];
      }
      last := cursor;
      cursor := c.next(cursor);
    }
    assert FiresIn(c, last, end) == [] && seen + [] == seen;
  }

  ghost function LastOf(fires: seq<int>): Option<int> {
    if fires == [] then None else Some(fires[|fires| - 1])
  }

  /** `_latest_due`: the most recent fire in (since, now]. */
  method LatestDue(c: Cron, since: int, now: int) returns (due: Option<int>)
    requires IsCron(c)
    ensures due == LastOf(FiresIn(c, since, now))
    ensures due.Some? ==> since < due.value <= now
  {
    due := None;
    var cursor := c.next(since);
    while cursor <= now
      invariant cursor == c.next(if due.None? then since else due.value)
      invariant due.Some? ==> since < due.value <= now
      invariant var rest := FiresIn(c, if due.None? then since else due.value, now);
        LastOf(FiresIn(c, since, now)) == if rest == [] then due else LastOf(rest)
      decreases now - cursor
    {
      due := Some(cursor);
      cursor := c.next(cursor);
    }
  }

  /** The newest fire in (since, now]. */
  ghost predicate NewestDue(c: Cron, since: int, now: int, fire: int) {
    since < fire <= now && IsFire(c, fire) && forall x :: fire < x <= now ==> !IsFire(c, x)
  }

  lemma LastIsNewestDue(c: Cron, since: int, now: int)
    requires IsCron(c)
    ensures forall fire :: LastOf(FiresIn(c, since, now)) == Some(fire) <==> NewestDue(c, since, now, fire)
  {
    var fires := FiresIn(c, since, now);
    FiresInMeans(c, since, now);
    forall fire
      ensures LastOf(fires) == Some(fire) <==> NewestDue(c, since, now, fire)
    {
      if LastOf(fires) == Some(fire) {
        assert fire == fires[|fires| - 1] && fire in fires;
        assert forall i :: 0 <= i < |fires| ==> fires[i] <= fire;
        assert forall x :: fire < x <= now ==> x !in fires;
      }
      if NewestDue(c, since, now, fire) {
        assert fire in fires && fires[|fires| - 1] in fires;
      }
    }
  }

  /** Is the newest of these fires on the slot of the fire before it? */
  predicate RepeatsSlot(c: Cron, fires: seq<int>) {
    |fires| >= 2 && c.wall(fires[|fires| - 2]) == c.wall(fires[|fires| - 1])
  }

  /** What dedup makes of the newest of some increasing fires. */
  lemma NewestIsKeptIff(c: Cron, fires: seq<int>)
    requires Increasing(fires)
    ensures LastOf(fires) == LastOf(Once(c, fires)) <==> !RepeatsSlot(c, fires)
  {
    if fires != [] {
      var init := fires[..|fires| - 1];
      OnceIsSubset(c, init);
      OnceEndsOnNewestSlot(c, init);
      var kept := Once(c, init);
      if kept != [] {
        var last := kept[|kept| - 1];
        assert last in kept;
        assert last in init && last < fires[|fires| - 1];
      }
    }
  }

  /** The tick loop's pick is the last fire `fires_between` lists, exactly when the
      newest fire does not repeat the wall-clock slot before it. */
  lemma LatestDueAgrees(c: Cron, since: int, now: int)
    requires IsCron(c)
    ensures var fires := FiresIn(c, since, now);
      LastOf(fires) == LastOf(Once(c, fires)) <==> !RepeatsSlot(c, fires)
    ensures NoRepeatedSlots(c) ==> !RepeatsSlot(c, FiresIn(c, since, now))
  {
    FiresInMeans(c, since, now);
    NewestIsKeptIff(c, FiresIn(c, since, now));
    if NoRepeatedSlots(c) {
      OnceIsIdentity(c, since, now);
    }
  }

  /** Fires at every instant, on a clock that shows each reading twice. */
  const FOLDED := Cron(t => t + 1, t => t / 2)

  lemma FoldedFires()
    ensures IsCron(FOLDED)
    ensures FiresIn(FOLDED, 1, 2) == [2] && FiresIn(FOLDED, 2, 3) == [3] && FiresIn(FOLDED, 2, 4) == [3, 4]
    ensures FiresIn(FOLDED, 1, 3) == [2, 3] && FiresIn(FOLDED, 1, 4) == [2, 3, 4]
    ensures Once(FOLDED, [2]) == [2] && Once(FOLDED, [2, 3]) == [2]
  {
    assert FiresIn(FOLDED, 4, 4) == [];
    assert FiresIn(FOLDED, 3, 4) == [4];
    assert FiresIn(FOLDED, 3, 3) == [];
    assert FiresIn(FOLDED, 2, 2) == [];
    assert [2, 3][..1] == [2] && [2][..0] == [];
  }

  /** On a folded clock `fires_between` drops the second of two neighbours on one slot,
      and the tick loop picks it. A catch-up that listed the first showing leaves the cursor there,
      and the tick loop fires the second, whether it came due before the catch-up was
      planned or after. */
  lemma FoldFiresTwice()
    ensures IsCron(FOLDED) && FOLDED.wall(2) == FOLDED.wall(3)
    ensures Once(FOLDED, FiresIn(FOLDED, 1, 3)) == [2] && LastOf(FiresIn(FOLDED, 1, 3)) == Some(3)
    ensures FiresIn(FOLDED, Cursor([2], 1), 3) == [3]
    ensures Once(FOLDED, FiresIn(FOLDED, 1, 2)) == [2] && !RepeatsSlot(FOLDED, FiresIn(FOLDED, 1, 2))
  {
    FoldedFires();
  }

  // --- catch-up -------------------------------------------------------------

  /** The fires `_plan_catch_up` replays out of those it missed. */
  function Replay(missed: seq<int>, policy: MissedPolicy, cap: int): (fires: seq<int>)
  {
    if missed == [] then []
    else match policy
      case SkipMissed => []
      case RunLatest => [missed[|missed| - 1]]
      case RunEach =>
        if cap > 0 && |missed| > cap then missed[|missed| - cap..]
        else if cap < 0 && -cap <= |missed| then missed[-cap..]  // a negative cap slices from the front
        else if cap < 0 then []
        else missed
  }

  /** The cursor `_plan_catch_up` leaves for the tick loop. */
  function Cursor(missed: seq<int>, baseline: int): int {
    if missed == [] then baseline else missed[|missed| - 1]
  }

  /** What is replayed is an ordered suffix of what was missed: nothing, the newest
      one, or the newest min(cap, n); a cap of 0 is no cap. */
  lemma ReplayIsSuffix(missed: seq<int>, policy: MissedPolicy, cap: int)
    ensures var fires := Replay(missed, policy, cap);
      && |fires| <= |missed| && fires == missed[|missed| - |fires|..]
      && (policy.SkipMissed? ==> fires == [])
      && (policy.RunLatest? ==> |fires| == if missed == [] then 0 else 1)
      && (policy.RunEach? && cap == 0 ==> fires == missed)
      && (policy.RunEach? && cap > 0 ==> |fires| == if |missed| < cap then |missed| else cap)
      && (policy.RunEach? && cap < 0 ==> |fires| == if |missed| < -cap then 0 else |missed| + cap)
  {
  }

  /** The newest fire that dedup kept is one of the fires, so a cursor in range. */
  lemma CursorInRange(c: Cron, baseline: int, now: int)
    requires IsCron(c) && baseline <= now
    ensures baseline <= Cursor(Once(c, FiresIn(c, baseline, now)), baseline) <= now
  {
    var fires := FiresIn(c, baseline, now);
    FiresInMeans(c, baseline, now);
    OnceIsSubset(c, fires);
    var kept := Once(c, fires);
    if kept != [] {
      assert kept[|kept| - 1] in kept;
    }
  }

  lemma HeadIsIn(s: seq<int>)
    ensures s == [] || s[0] in s
  {
  }

  /** Nothing fires between the newest fire and now, and something does after an older one. */
  lemma TailIsEmpty(c: Cron, baseline: int, now: int, cursor: int)
    requires IsCron(c) && baseline <= cursor <= now
    requires cursor == baseline || cursor in FiresIn(c, baseline, now)
    ensures FiresIn(c, cursor, now) == [] <==> cursor == Cursor(FiresIn(c, baseline, now), baseline)
  {
    var fires := FiresIn(c, baseline, now);
    var tail := FiresIn(c, cursor, now);
    FiresInMeans(c, baseline, now);
    FiresInMeans(c, cursor, now);
    if fires != [] {
      var last := fires[|fires| - 1];
      assert last in fires;
      if cursor != last {
        assert last in tail;
      }
    }
    HeadIsIn(tail);
  }

  /** No fire is on the slot of the one before it. */
  ghost predicate NoNeighbours(c: Cron, fires: seq<int>) {
    forall i :: 0 < i < |fires| ==> c.wall(fires[i - 1]) != c.wall(fires[i])
  }

  lemma NeighboursOfJoin(c: Cron, a: seq<int>, b: seq<int>)
    ensures NoNeighbours(c, a + b) <==>
      NoNeighbours(c, a) && NoNeighbours(c, b) && (a != [] && b != [] ==> c.wall(a[|a| - 1]) != c.wall(b[0]))
  {
    var s := a + b;
    if NoNeighbours(c, s) {
      forall i | 0 < i < |a|
        ensures c.wall(a[i - 1]) != c.wall(a[i])
      {
        assert s[i - 1] == a[i - 1] && s[i] == a[i];
      }
      forall i | 0 < i < |b|
        ensures c.wall(b[i - 1]) != c.wall(b[i])
      {
        assert s[|a| + i - 1] == b[i - 1] && s[|a| + i] == b[i];
      }
      assert a != [] && b != [] ==> s[|a| - 1] == a[|a| - 1] && s[|a|] == b[0];
    }
  }

  lemma {:induction false} OnceIsPrefix(c: Cron, a: seq<int>, b: seq<int>)
    ensures Once(c, a) <= Once(c, a + b)
    decreases |b|
  {
    if b == [] {
      assert a + b == a;
    } else {
      assert (a + b)[..|a + b| - 1] == a + b[..|b| - 1];
      OnceIsPrefix(c, a, b[..|b| - 1]);
    }
  }

  /** What dedup kept is all the fires up to the newest it kept, exactly when no two
      neighbours among those are on one slot. */
  lemma KeptAllIff(c: Cron, upTo: seq<int>, rest: seq<int>)
    requires Increasing(upTo + rest)
    requires var kept := Once(c, upTo + rest); LastOf(kept) == LastOf(upTo)
    ensures Once(c, upTo + rest) == upTo <==> NoNeighbours(c, upTo)
  {
    var kept := Once(c, upTo + rest);
    OnceEndsOnNewestSlot(c, upTo + rest);
    if NoNeighbours(c, upTo) {
      OnceKeepsAll(c, upTo);
      OnceIsPrefix(c, upTo, rest);
      OnceIsOrdered(c, upTo + rest);
      assert upTo != [] ==> kept[|upTo| - 1] == upTo[|upTo| - 1];
    }
  }

  /** The fires up to the cursor, and those after it. */
  lemma CursorSplits(c: Cron, baseline: int, now: int)
    requires IsCron(c) && baseline <= now
    ensures var fires := FiresIn(c, baseline, now);
      var cursor := Cursor(Once(c, fires), baseline);
      && baseline <= cursor <= now
      && fires == FiresIn(c, baseline, cursor) + FiresIn(c, cursor, now)
      && LastOf(Once(c, fires)) == LastOf(FiresIn(c, baseline, cursor))
  {
    var fires := FiresIn(c, baseline, now);
    var kept := Once(c, fires);
    var cursor := Cursor(kept, baseline);
    CursorInRange(c, baseline, now);
    FiresSplit(c, baseline, cursor, now);
    if kept == [] {
      OnceEndsOnNewestSlot(c, fires);
    } else {
      OnceIsSubset(c, fires);
      assert kept[|kept| - 1] in kept;
      FiresInMeans(c, baseline, now);
      FiresInMeans(c, baseline, cursor);
      EndsOn(FiresIn(c, baseline, cursor), cursor);
    }
  }

  lemma EndsOn(s: seq<int>, x: int)
    requires Increasing(s) && x in s && forall y :: y in s ==> y <= x
    ensures LastOf(s) == Some(x)
  {
    var i :| 0 <= i < |s| && s[i] == x;
    assert s[|s| - 1] in s;
  }

  /** Hand-over: the cursor `_plan_catch_up` leaves splits the fires after the baseline
      into those up to it and those later ticks will see. What it lists together with
      those is every fire, each once, exactly when no two neighbours up to the cursor
      are on one slot: dedup then dropped nothing that a tick does not see. */
  lemma HandOver(c: Cron, baseline: int, now: int, later: int)
    requires IsCron(c) && now <= later
    ensures var missed := Once(c, FiresIn(c, baseline, now));
      var cursor := Cursor(missed, baseline);
      && FiresIn(c, baseline, later) == FiresIn(c, baseline, cursor) + FiresIn(c, cursor, later)
      && (missed + FiresIn(c, cursor, later) == FiresIn(c, baseline, later) <==>
          NoNeighbours(c, FiresIn(c, baseline, cursor)))
  {
    var fires := FiresIn(c, baseline, now);
    var missed := Once(c, fires);
    var cursor := Cursor(missed, baseline);
    if baseline <= now {
      CursorSplits(c, baseline, now);
      FiresSplit(c, baseline, cursor, later);
      FiresInMeans(c, baseline, now);
      KeptAllIff(c, FiresIn(c, baseline, cursor), FiresIn(c, cursor, now));
      SamePrefix(missed, FiresIn(c, baseline, cursor), FiresIn(c, cursor, later));
    }
  }

  lemma SamePrefix(a: seq<int>, b: seq<int>, tail: seq<int>)
    ensures a + tail == b + tail <==> a == b
  {
    if a + tail == b + tail {
      assert |a + tail| == |b + tail|;
      assert (a + tail)[..|a|] == a && (b + tail)[..|b|] == b;
    }
  }

  /** A repeat that is dropped at the very end is not lost: the cursor stays before it. */
  lemma TrailingDropIsSeenLater()
    ensures IsCron(FOLDED) && Once(FOLDED, FiresIn(FOLDED, 1, 3)) == [2] != FiresIn(FOLDED, 1, 3)
    ensures [2] + FiresIn(FOLDED, Cursor([2], 1), 4) == FiresIn(FOLDED, 1, 4)
  {
    FoldedFires();
  }

  /** Exactly when a wall-clock slot shows up twice in a row over a hand-over: among
      what catch-up lists and the fires after its cursor no slot repeats its neighbour
      if and only if none does after the cursor, and the first fire after the cursor is
      not on the cursor's own slot. */
  lemma SlotsRepeatIff(c: Cron, baseline: int, now: int, later: int)
    requires IsCron(c)
    ensures var missed := Once(c, FiresIn(c, baseline, now));
      var cursor := Cursor(missed, baseline);
      NoNeighbours(c, missed + FiresIn(c, cursor, later)) <==>
        && NoNeighbours(c, FiresIn(c, cursor, later))
        && (missed != [] && c.next(cursor) <= later ==> c.wall(cursor) != c.wall(c.next(cursor)))
  {
    var missed := Once(c, FiresIn(c, baseline, now));
    OnceEndsOnNewestSlot(c, FiresIn(c, baseline, now));
    NeighboursOfJoin(c, missed, FiresIn(c, Cursor(missed, baseline), later));
  }

  /** On a stream without repeated slots the hand-over is exact: what catch-up lists
      and what later ticks see are disjoint and leave no gap. */
  lemma HandOverIsExact(c: Cron, baseline: int, now: int, later: int)
    requires IsCron(c) && NoRepeatedSlots(c) && now <= later
    ensures var missed := Once(c, FiresIn(c, baseline, now));
      missed + FiresIn(c, Cursor(missed, baseline), later) == FiresIn(c, baseline, later)
  {
    OnceIsIdentity(c, baseline, now);
    var cursor := Cursor(FiresIn(c, baseline, now), baseline);
    HandOver(c, baseline, now, later);
    OnceIsIdentity(c, baseline, cursor);
    OnceEndsOnNewestSlot(c, FiresIn(c, baseline, cursor));
  }

  // --- the tick loop --------------------------------------------------------

  /** The fires each of a series of ticks finds due. */
  ghost function Blocks(c: Cron, since: int, ticks: seq<int>): seq<seq<int>>
    requires IsCron(c)
    decreases |ticks|
  {
    if ticks == [] then []
    else
      var due := FiresIn(c, since, ticks[0]);
      [due] + Blocks(c, Cursor(due, since), ticks[1..])
  }

  ghost function Flatten(blocks: seq<seq<int>>): seq<int> {
    if blocks == [] then [] else blocks[0] + Flatten(blocks[1..])
  }

  /** Over one boot the ticks' fires are all the fires, each found by one tick: since
      a tick picks the last of what it finds, its picks strictly increase and the
      fires passed over are exactly those between one pick and the next. */
  lemma {:induction false} TicksPartitionTheFires(c: Cron, since: int, ticks: seq<int>)
    requires IsCron(c) && ticks != []
    requires forall i, j :: 0 <= i < j < |ticks| ==> ticks[i] <= ticks[j]
    ensures Flatten(Blocks(c, since, ticks)) == FiresIn(c, since, ticks[|ticks| - 1])
    decreases |ticks|
  {
    var due := FiresIn(c, since, ticks[0]);
    var cursor := Cursor(due, since);
    var rest := Blocks(c, cursor, ticks[1..]);
    var last := ticks[|ticks| - 1];
    assert ([due] + rest)[1..] == rest;
    if since <= ticks[0] {
      FiresInMeans(c, since, ticks[0]);
      assert due != [] ==> due[|due| - 1] in due;
      FiresSplit(c, since, ticks[0], last);
      FiresSplit(c, cursor, ticks[0], last);
      TailIsEmpty(c, since, ticks[0], cursor);
    }
    if |ticks| > 1 {
      TicksPartitionTheFires(c, cursor, ticks[1..]);
    } else {
      assert rest == [] && Flatten(rest) == [];
    }
  }

  /** The fires that a series of ticks picks: the newest of each block. */
  ghost function Picks(c: Cron, since: int, ticks: seq<int>): seq<int>
    requires IsCron(c)
    decreases |ticks|
  {
    if ticks == [] then []
    else
      var due := FiresIn(c, since, ticks[0]);
      var rest := Picks(c, Cursor(due, since), ticks[1..]);
      if due == [] then rest else [due[|due| - 1]] + rest
  }

  ghost predicate TicksUpTo(ticks: seq<int>, later: int) {
    && (forall i, j :: 0 <= i < j < |ticks| ==> ticks[i] <= ticks[j])
    && (ticks != [] ==> ticks[|ticks| - 1] <= later)
  }

  /** Picks are fires after the cursor, and strictly increase. */
  lemma {:induction false} PicksMean(c: Cron, since: int, ticks: seq<int>, later: int)
    requires IsCron(c) && TicksUpTo(ticks, later)
    ensures Increasing(Picks(c, since, ticks))
    ensures forall x :: x in Picks(c, since, ticks) ==> since < x <= later && IsFire(c, x)
    decreases |ticks|
  {
    if ticks != [] {
      var due := FiresIn(c, since, ticks[0]);
      var cursor := Cursor(due, since);
      FiresInMeans(c, since, ticks[0]);
      assert due != [] ==> due[|due| - 1] in due;
      PicksMean(c, cursor, ticks[1..], later);
      if due != [] {
        PrependIncreasing(cursor, Picks(c, cursor, ticks[1..]));
      }
    }
  }

  /** All the fires after the cursor, and the cursor itself if it is a fire listed. */
  ghost function Onwards(c: Cron, missed: seq<int>, cursor: int, later: int): seq<int>
    requires IsCron(c)
  {
    (if missed == [] then [] else [cursor]) + FiresIn(c, cursor, later)
  }

  ghost predicate SlotsDiffer(c: Cron, fires: seq<int>) {
    forall i, j :: 0 <= i < j < |fires| ==> c.wall(fires[i]) != c.wall(fires[j])
  }

  /** Whenever the loop happens to tick, no pick is on the slot of the fire before it. */
  ghost predicate NeverRepeats(c: Cron, missed: seq<int>, cursor: int, later: int)
    requires IsCron(c)
  {
    forall ticks :: TicksUpTo(ticks, later) ==> NoNeighbours(c, missed + Picks(c, cursor, ticks))
  }

  lemma DifferentSlotsNeverRepeat(c: Cron, missed: seq<int>, cursor: int, later: int, ticks: seq<int>)
    requires IsCron(c) && NoNeighbours(c, missed) && (missed != [] ==> missed[|missed| - 1] == cursor)
    requires SlotsDiffer(c, Onwards(c, missed, cursor, later)) && TicksUpTo(ticks, later)
    ensures NoNeighbours(c, missed + Picks(c, cursor, ticks))
  {
    var picks := Picks(c, cursor, ticks);
    PicksMean(c, cursor, ticks, later);
    forall i | 0 < i < |picks|
      ensures c.wall(picks[i - 1]) != c.wall(picks[i])
    {
      assert picks[i - 1] in picks && picks[i] in picks;
      DifferOnwards(c, missed, cursor, later, picks[i - 1], picks[i]);
    }
    if missed != [] && picks != [] {
      assert picks[0] in picks;
      DifferOnwards(c, missed, cursor, later, cursor, picks[0]);
    }
    NeighboursOfJoin(c, missed, picks);
  }

  lemma DifferOnwards(c: Cron, missed: seq<int>, cursor: int, later: int, x: int, y: int)
    requires IsCron(c) && SlotsDiffer(c, Onwards(c, missed, cursor, later))
    requires (x == cursor && missed != []) || (cursor < x && IsFire(c, x))
    requires x < y <= later && IsFire(c, y)
    ensures c.wall(x) != c.wall(y)
  {
    var all := Onwards(c, missed, cursor, later);
    var fires := FiresIn(c, cursor, later);
    FiresInMeans(c, cursor, later);
    assert y in fires && (x == cursor || x in fires);
    assert x in all && y in all;
  }

  lemma TwoTicks(c: Cron, cursor: int, x: int, y: int)
    requires IsCron(c) && cursor < x < y && IsFire(c, x) && IsFire(c, y)
    ensures Picks(c, cursor, [x, y]) == [x, y]
  {
    OneTick(c, cursor, x);
    OneTick(c, x, y);
    assert [x, y][1..] == [y];
  }

  lemma OneTick(c: Cron, cursor: int, y: int)
    requires IsCron(c) && cursor < y && IsFire(c, y)
    ensures LastOf(FiresIn(c, cursor, y)) == Some(y) && Picks(c, cursor, [y]) == [y]
  {
    FiresInMeans(c, cursor, y);
    EndsOn(FiresIn(c, cursor, y), y);
    assert Picks(c, y, []) == [] && [y][1..] == [];
  }

  lemma TicksThatRepeat(c: Cron, missed: seq<int>, cursor: int, later: int, i: nat, j: nat) returns (ticks: seq<int>)
    requires IsCron(c) && (missed != [] ==> missed[|missed| - 1] == cursor)
    requires var all := Onwards(c, missed, cursor, later); i < j < |all| && c.wall(all[i]) == c.wall(all[j])
    ensures TicksUpTo(ticks, later) && !NoNeighbours(c, missed + Picks(c, cursor, ticks))
  {
    var all := Onwards(c, missed, cursor, later);
    var fires := FiresIn(c, cursor, later);
    FiresInMeans(c, cursor, later);
    var first := |all| - |fires|;
    assert all[j] == fires[j - first] && fires[j - first] in fires;
    if i < first {
      ticks := [all[j]];
      OneTick(c, cursor, all[j]);
    } else {
      assert all[i] == fires[i - first] && fires[i - first] in fires;
      ticks := [all[i], all[j]];
      TwoTicks(c, cursor, all[i], all[j]);
      assert Picks(c, cursor, ticks)[0] == all[i] && Picks(c, cursor, ticks)[1] == all[j];
    }
    NeighboursOfJoin(c, missed, Picks(c, cursor, ticks));
  }

  lemma SameSlotRepeats(c: Cron, missed: seq<int>, cursor: int, later: int)
    requires IsCron(c) && (missed != [] ==> missed[|missed| - 1] == cursor)
    requires !SlotsDiffer(c, Onwards(c, missed, cursor, later))
    ensures !NeverRepeats(c, missed, cursor, later)
  {
    var all := Onwards(c, missed, cursor, later);
    var i, j :| 0 <= i < j < |all| && c.wall(all[i]) == c.wall(all[j]);
    var ticks := TicksThatRepeat(c, missed, cursor, later, i, j);
  }

  lemma NeverRepeatsAfter(c: Cron, missed: seq<int>, cursor: int, later: int)
    requires IsCron(c) && NoNeighbours(c, missed) && (missed != [] ==> missed[|missed| - 1] == cursor)
    ensures NeverRepeats(c, missed, cursor, later) <==> SlotsDiffer(c, Onwards(c, missed, cursor, later))
  {
    if SlotsDiffer(c, Onwards(c, missed, cursor, later)) {
      forall ticks | TicksUpTo(ticks, later)
        ensures NoNeighbours(c, missed + Picks(c, cursor, ticks))
      {
        DifferentSlotsNeverRepeat(c, missed, cursor, later, ticks);
      }
    } else {
      SameSlotRepeats(c, missed, cursor, later);
    }
  }

  /** Exactly when no series of ticks fires a slot twice in a row after a catch-up: all
      fires from the cursor on are on slots of their own. A tick may pass fires over,
      so slots that are not neighbours count as well. */
  lemma NeverRepeatsIff(c: Cron, baseline: int, now: int, later: int)
    requires IsCron(c)
    ensures var missed := Once(c, FiresIn(c, baseline, now));
      var cursor := Cursor(missed, baseline);
      NeverRepeats(c, missed, cursor, later) <==> SlotsDiffer(c, Onwards(c, missed, cursor, later))
  {
    var missed := Once(c, FiresIn(c, baseline, now));
    OnceEndsOnNewestSlot(c, FiresIn(c, baseline, now));
    NeverRepeatsAfter(c, missed, Cursor(missed, baseline), later);
  }

  // --- a slot at most once --------------------------------------------------------------

  /** Fires at every instant, on a clock that shows two readings in turn. */
  const ALTERNATING := Cron(t => t + 1, t => t % 2)

  /** Whenever the loop happens to tick, no slot fires twice over the hand-over. */
  ghost predicate SlotsFireOnce(c: Cron, missed: seq<int>, cursor: int, later: int)
    requires IsCron(c)
  {
    forall ticks :: TicksUpTo(ticks, later) ==> SlotsDiffer(c, missed + Picks(c, cursor, ticks))
  }

  /** A strictly increasing selection of a list of fires on slots of their own. */
  lemma SelectionDiffers(c: Cron, missed: seq<int>, fires: seq<int>, picks: seq<int>)
    requires SlotsDiffer(c, missed + fires) && Increasing(fires) && Increasing(picks)
    requires forall x :: x in picks ==> x in fires
    ensures SlotsDiffer(c, missed + picks)
  {
    var all, s := missed + fires, missed + picks;
    forall i, j | 0 <= i < j < |s|
      ensures c.wall(s[i]) != c.wall(s[j])
    {
      if j < |missed| {
        assert all[i] == s[i] && all[j] == s[j];
      } else {
        assert s[j] in picks;
        var n :| 0 <= n < |fires| && fires[n] == s[j];
        assert all[|missed| + n] == s[j];
        if i < |missed| {
          assert all[i] == s[i];
        } else {
          assert s[i] in picks;
          var m :| 0 <= m < |fires| && fires[m] == s[i];
          assert all[|missed| + m] == s[i];
          assert picks[i - |missed|] < picks[j - |missed|];
        }
      }
    }
  }

  lemma DifferentSlotsFireOnce(c: Cron, missed: seq<int>, cursor: int, later: int)
    requires IsCron(c) && SlotsDiffer(c, missed + FiresIn(c, cursor, later))
    ensures SlotsFireOnce(c, missed, cursor, later)
  {
    var fires := FiresIn(c, cursor, later);
    FiresInMeans(c, cursor, later);
    forall ticks | TicksUpTo(ticks, later)
      ensures SlotsDiffer(c, missed + Picks(c, cursor, ticks))
    {
      PicksMean(c, cursor, ticks, later);
      SelectionDiffers(c, missed, fires, Picks(c, cursor, ticks));
    }
  }

  lemma SameSlotAt(c: Cron, s: seq<int>, i: nat, j: nat)
    requires i < j < |s| && c.wall(s[i]) == c.wall(s[j])
    ensures !SlotsDiffer(c, s)
  {
  }

  /** Two fires on one slot are both fired by some series of ticks. */
  lemma SameSlotFires(c: Cron, missed: seq<int>, cursor: int, later: int, i: nat, j: nat) returns (ticks: seq<int>)
    requires IsCron(c)
    requires var all := missed + FiresIn(c, cursor, later); i < j < |all| && c.wall(all[i]) == c.wall(all[j])
    ensures TicksUpTo(ticks, later) && !SlotsDiffer(c, missed + Picks(c, cursor, ticks))
  {
    var fires := FiresIn(c, cursor, later);
    var all := missed + fires;
    FiresInMeans(c, cursor, later);
    var n := |missed|;
    if j < n {
      ticks := [];
      SameSlotAt(c, missed + Picks(c, cursor, ticks), i, j);
    } else {
      assert all[j] == fires[j - n] && fires[j - n] in fires;
      if i < n {
        ticks := [all[j]];
        OneTick(c, cursor, all[j]);
        SameSlotAt(c, missed + Picks(c, cursor, ticks), i, n);
      } else {
        assert all[i] == fires[i - n] && fires[i - n] in fires;
        ticks := [all[i], all[j]];
        TwoTicks(c, cursor, all[i], all[j]);
        SameSlotAt(c, missed + Picks(c, cursor, ticks), n, n + 1);
      }
    }
  }

  /** Exactly when no slot fires twice over a hand-over, however the loop ticks: what
      catch-up lists and all fires after its cursor are on slots of their own. */
  lemma SlotsFireOnceIff(c: Cron, missed: seq<int>, cursor: int, later: int)
    requires IsCron(c)
    ensures SlotsFireOnce(c, missed, cursor, later) <==> SlotsDiffer(c, missed + FiresIn(c, cursor, later))
  {
    var all := missed + FiresIn(c, cursor, later);
    if SlotsDiffer(c, all) {
      DifferentSlotsFireOnce(c, missed, cursor, later);
    } else {
      var i, j :| 0 <= i < j < |all| && c.wall(all[i]) == c.wall(all[j]);
      var ticks := SameSlotFires(c, missed, cursor, later, i, j);
    }
  }

  lemma AlternatingFires()
    ensures IsCron(ALTERNATING)
    ensures FiresIn(ALTERNATING, 0, 3) == [1, 2, 3] && FiresIn(ALTERNATING, 3, 3) == []
  {
    assert FiresIn(ALTERNATING, 2, 3) == [3];
    assert FiresIn(ALTERNATING, 1, 3) == [2, 3];
  }

  lemma NothingAfterNeverRepeats(c: Cron, missed: seq<int>, cursor: int)
    requires IsCron(c) && NoNeighbours(c, missed) && missed != [] && missed[|missed| - 1] == cursor
    ensures NeverRepeats(c, missed, cursor, cursor)
  {
    assert FiresIn(c, cursor, cursor) == [] && Onwards(c, missed, cursor, cursor) == [cursor];
    NeverRepeatsAfter(c, missed, cursor, cursor);
  }

  lemma ListRepeats(c: Cron, missed: seq<int>, cursor: int, i: nat, j: nat)
    requires IsCron(c) && i < j < |missed| && c.wall(missed[i]) == c.wall(missed[j])
    ensures !SlotsFireOnce(c, missed, cursor, cursor)
  {
    assert FiresIn(c, cursor, cursor) == [] && missed + [] == missed;
    SameSlotAt(c, missed, i, j);
    SlotsFireOnceIff(c, missed, cursor, cursor);
  }

  /** Three fires, the last on the slot of the first. */
  lemma ApartOnly(c: Cron, s: seq<int>)
    requires IsCron(c) && |s| == 3 && c.wall(s[0]) == c.wall(s[2]) != c.wall(s[1])
    ensures NeverRepeats(c, s, s[2], s[2]) && !SlotsFireOnce(c, s, s[2], s[2])
  {
    NothingAfterNeverRepeats(c, s, s[2]);
    ListRepeats(c, s, s[2], 0, 2);
  }

  lemma AlternatingList()
    ensures Once(ALTERNATING, [1, 2, 3]) == [1, 2, 3]
  {
    OnceKeepsAll(ALTERNATING, [1, 2, 3]);
  }

  /** Dedup compares neighbours only: with another slot in between, the list alone holds
      a slot twice, and no pair of neighbours tells. */
  lemma ListHoldsASlotTwice()
    ensures IsCron(ALTERNATING) && ALTERNATING.wall(1) == ALTERNATING.wall(3)
    ensures Once(ALTERNATING, FiresIn(ALTERNATING, 0, 3)) == [1, 2, 3]
    ensures NeverRepeats(ALTERNATING, [1, 2, 3], 3, 3) && !SlotsFireOnce(ALTERNATING, [1, 2, 3], 3, 3)
  {
    AlternatingFires();
    AlternatingList();
    ApartOnly(ALTERNATING, [1, 2, 3]);
  }
}
