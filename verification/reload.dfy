/** `reload`: merging a validated configuration into the running job set. Jobs that
    changed keep their old definition, so their old edges. */
module Reload {
  import opened Models
  import opened Dependencies

  predicate HasName(jobs: seq<Decl>, n: string) {
    exists i :: 0 <= i < |jobs| && jobs[i].name == n
  }

  /** The jobs whose name is, or is not, in the other list. */
  function Select(jobs: seq<Decl>, other: seq<Decl>, present: bool): seq<Decl> {
    if jobs == [] then []
    else
      var rest := Select(jobs[..|jobs| - 1], other, present);
      if HasName(other, jobs[|jobs| - 1].name) == present then rest + [jobs[|jobs| - 1]] else rest
  }

  // --- sorted(…) ---------------------------------------------------------------------

  function Insert(d: Decl, jobs: seq<Decl>): seq<Decl> {
    if jobs == [] || Less(d.name, jobs[0].name) then [d] + jobs
    else [jobs[0]] + Insert(d, jobs[1..])
  }

  function ByName(jobs: seq<Decl>): seq<Decl> {
    if jobs == [] then [] else Insert(jobs[|jobs| - 1], ByName(jobs[..|jobs| - 1]))
  }

  ghost predicate Ascending(jobs: seq<Decl>) {
    forall i, j :: 0 <= i < j < |jobs| ==> Less(jobs[i].name, jobs[j].name)
  }

  lemma {:induction false} InsertHolds(d: Decl, jobs: seq<Decl>)
    ensures forall x :: x in Insert(d, jobs) <==> x == d || x in jobs
  {
    if jobs != [] && !Less(d.name, jobs[0].name) {
      InsertHolds(d, jobs[1..]);
      assert jobs == [jobs[0]] + jobs[1..];
    }
  }

  lemma AscendingFrom(d: Decl, rest: seq<Decl>)
    requires Ascending(rest) && forall x :: x in rest ==> Less(d.name, x.name)
    ensures Ascending([d] + rest)
  {
    var s := [d] + rest;
    forall i, j | 0 <= i < j < |s|
      ensures Less(s[i].name, s[j].name)
    {
      assert s[j] == rest[j - 1] && rest[j - 1] in rest;
    }
  }

  lemma {:induction false} InsertKeepsOrder(d: Decl, jobs: seq<Decl>)
    requires Ascending(jobs) && forall x :: x in jobs ==> x.name != d.name
    ensures Ascending(Insert(d, jobs))
  {
    if jobs == [] {
    } else if Less(d.name, jobs[0].name) {
      forall x | x in jobs
        ensures Less(d.name, x.name)
      {
        var i :| 0 <= i < |jobs| && jobs[i] == x;
        if i > 0 { LessIsTransitive(d.name, jobs[0].name, x.name); }
      }
      AscendingFrom(d, jobs);
    } else {
      InsertKeepsOrder(d, jobs[1..]);
      InsertHolds(d, jobs[1..]);
      LessIsTotal(d.name, jobs[0].name);
      AscendingFrom(jobs[0], Insert(d, jobs[1..]));
    }
  }

  /** Sorting by name keeps the jobs, and puts unique names in strictly rising order. */
  lemma {:induction false} ByNameMeans(jobs: seq<Decl>)
    requires UniqueNames(jobs)
    ensures forall d :: d in ByName(jobs) <==> d in jobs
    ensures Ascending(ByName(jobs)) && UniqueNames(ByName(jobs))
  {
    if jobs != [] {
      var n := |jobs| - 1;
      ByNameMeans(jobs[..n]);
      InsertHolds(jobs[n], ByName(jobs[..n]));
      InsertKeepsOrder(jobs[n], ByName(jobs[..n]));
      assert jobs == jobs[..n] + [jobs[n]];
    }
    AscendingIsUnique(ByName(jobs));
  }

  lemma AscendingIsUnique(jobs: seq<Decl>)
    requires Ascending(jobs)
    ensures UniqueNames(jobs)
  {
    forall i, j | 0 <= i < j < |jobs|
      ensures jobs[i].name != jobs[j].name
    {
      NotLessThanItself(jobs[i].name);
    }
  }

  // --- the merge ---------------------------------------------------------------------

  /** Running jobs the new configuration still has, then those it adds, by name. */
  function Merge(running: seq<Decl>, config: seq<Decl>): seq<Decl> {
    Select(running, config, true) + ByName(Select(config, running, false))
  }

  lemma MergeHolds(running: seq<Decl>, config: seq<Decl>)
    requires UniqueNames(running) && UniqueNames(config)
    ensures UniqueNames(Select(running, config, true)) && UniqueNames(ByName(Select(config, running, false)))
    ensures forall d :: d in Select(running, config, true) <==> d in running && HasName(config, d.name)
    ensures forall d :: d in ByName(Select(config, running, false)) <==> d in config && !HasName(running, d.name)
  {
    SelectMeans(running, config, true);
    SelectMeans(config, running, false);
    SelectKeepsUnique(running, config, true);
    SelectKeepsUnique(config, running, false);
    ByNameMeans(Select(config, running, false));
  }

  lemma {:induction false} SelectMeans(jobs: seq<Decl>, other: seq<Decl>, present: bool)
    ensures forall d :: d in Select(jobs, other, present) <==> d in jobs && HasName(other, d.name) == present
  {
    if jobs != [] {
      var n := |jobs| - 1;
      SelectMeans(jobs[..n], other, present);
      assert jobs == jobs[..n] + [jobs[n]];
    }
  }

  lemma {:induction false} SelectKeepsUnique(jobs: seq<Decl>, other: seq<Decl>, present: bool)
    requires UniqueNames(jobs)
    ensures UniqueNames(Select(jobs, other, present))
  {
    if jobs != [] {
      var n := |jobs| - 1;
      SelectKeepsUnique(jobs[..n], other, present);
      SelectMeans(jobs[..n], other, present);
      var rest := Select(jobs[..n], other, present);
      forall i | 0 <= i < |rest|
        ensures rest[i].name != jobs[n].name
      {
        assert rest[i] in rest;
        var m :| 0 <= m < n && jobs[..n][m] == rest[i];
        assert jobs[m].name == rest[i].name;
      }
    }
  }

  lemma NameOf(jobs: seq<Decl>, d: Decl)
    requires d in jobs
    ensures HasName(jobs, d.name)
  {
    var i :| 0 <= i < |jobs| && jobs[i] == d;
    assert jobs[i].name == d.name;
  }

  lemma MergeIsUnique(running: seq<Decl>, config: seq<Decl>)
    requires UniqueNames(running) && UniqueNames(config)
    ensures UniqueNames(Merge(running, config))
  {
    var kept, added := Select(running, config, true), ByName(Select(config, running, false));
    MergeHolds(running, config);
    forall i, j | 0 <= i < |kept| && 0 <= j < |added|
      ensures kept[i].name != added[j].name
    {
      assert kept[i] in kept && added[j] in added;
      NameOf(running, kept[i]);
    }
  }

  lemma MergedName(running: seq<Decl>, config: seq<Decl>, n: string)
    requires UniqueNames(running) && UniqueNames(config)
    ensures HasName(Merge(running, config), n) <==> HasName(config, n)
  {
    var jobs := Merge(running, config);
    MergeHolds(running, config);
    if HasName(jobs, n) {
      var i :| 0 <= i < |jobs| && jobs[i].name == n;
      var d := jobs[i];
      assert d in Select(running, config, true) || d in ByName(Select(config, running, false));
      if d in config { NameOf(config, d); }
    }
    if HasName(config, n) {
      var i :| 0 <= i < |config| && config[i].name == n;
      if HasName(running, n) {
        var m :| 0 <= m < |running| && running[m].name == n;
        NameOf(jobs, running[m]);
      } else {
        NameOf(jobs, config[i]);
      }
    }
  }

  /** Names stay unique, and the merged set holds exactly the new configuration's names. */
  lemma MergeKeepsNames(running: seq<Decl>, config: seq<Decl>)
    requires UniqueNames(running) && UniqueNames(config)
    ensures UniqueNames(Merge(running, config))
    ensures forall n :: HasName(Merge(running, config), n) <==> HasName(config, n)
  {
    MergeIsUnique(running, config);
    forall n
      ensures HasName(Merge(running, config), n) <==> HasName(config, n)
    {
      MergedName(running, config, n);
    }
  }

  lemma EdgeOf(jobs: seq<Decl>, n: string, up: string)
    requires UniqueNames(jobs)
    ensures Edge(GraphOf(jobs), n, up) <==> exists d :: d in jobs && d.name == n && up in d.after
    ensures n in GraphOf(jobs) <==> HasName(jobs, n)
  {
    GraphOfMeans(jobs);
    if n in GraphOf(jobs) {
      var i :| 0 <= i < |jobs| && Names(jobs)[i] == n;
      assert jobs[i] in jobs && jobs[i].name == n;
      forall d | d in jobs && d.name == n
        ensures d == jobs[i]
      {
        var m :| 0 <= m < |jobs| && jobs[m] == d;
      }
    }
    if HasName(jobs, n) {
      var i :| 0 <= i < |jobs| && jobs[i].name == n;
      assert Names(jobs)[i] == n;
    }
    forall d | d in jobs && d.name == n
      ensures HasName(jobs, n)
    {
      NameOf(jobs, d);
    }
  }

  /** An edge of the merged graph is an edge of the running one if it starts at a
      running job, and one of the new configuration otherwise. */
  lemma MergedEdge(running: seq<Decl>, config: seq<Decl>, n: string, up: string)
    requires UniqueNames(running) && UniqueNames(config) && Edge(GraphOf(Merge(running, config)), n, up)
    ensures HasName(running, n) ==> Edge(GraphOf(running), n, up)
    ensures !HasName(running, n) ==> Edge(GraphOf(config), n, up)
  {
    var jobs := Merge(running, config);
    MergeKeepsNames(running, config);
    MergeHolds(running, config);
    EdgeOf(jobs, n, up);
    EdgeOf(running, n, up);
    EdgeOf(config, n, up);
    var d :| d in jobs && d.name == n && up in d.after;
    if d in Select(running, config, true) {
      NameOf(running, d);
    }
  }

  /** On a cycle of the merged graph either every node is a running job or none is. */
  lemma {:induction false} RunningIsClosedUnder(running: seq<Decl>, config: seq<Decl>, p: seq<string>, i: nat, j: nat)
    requires UniqueNames(running) && UniqueNames(config) && Closed(GraphOf(running))
    requires IsWalk(GraphOf(Merge(running, config)), p) && i <= j < |p| && HasName(running, p[i])
    ensures HasName(running, p[j])
    decreases j - i
  {
    if i < j {
      assert Edge(GraphOf(Merge(running, config)), p[i], p[i + 1]);
      MergedEdge(running, config, p[i], p[i + 1]);
      assert p[i + 1] in GraphOf(running)[p[i]];
      EdgeOf(running, p[i + 1], p[i + 1]);
      RunningIsClosedUnder(running, config, p, i + 1, j);
    }
  }

  /** Reload keeps the graph acyclic as long as every upstream of a running job runs. */
  lemma ReloadStaysAcyclic(running: seq<Decl>, config: seq<Decl>)
    requires Accepted(running) && Accepted(config)
    ensures Acyclic(GraphOf(Merge(running, config)))
  {
    var g := GraphOf(Merge(running, config));
    forall p
      ensures !IsCycle(g, p)
    {
      if |p| >= 2 && p[0] == p[|p| - 1] && IsWalk(g, p) {
        var inside := HasName(running, p[0]);
        var h := if inside then GraphOf(running) else GraphOf(config);
        forall i | 0 <= i < |p| - 1
          ensures Edge(h, p[i], p[i + 1])
        {
          assert Edge(g, p[i], p[i + 1]);
          MergedEdge(running, config, p[i], p[i + 1]);
          if inside {
            RunningIsClosedUnder(running, config, p, 0, i);
          } else if HasName(running, p[i]) {
            RunningIsClosedUnder(running, config, p, i, |p| - 1);
          }
        }
        assert IsCycle(h, p);
      }
    }
  }

  /** A configuration in which `x`, new, runs after `a` alone. */
  function Revive(a: string, x: string): seq<Decl> {
    [Decl(a, []), Decl(x, [a])]
  }

  lemma ReviveIsAccepted(a: string, x: string)
    requires a != x
    ensures Accepted(Revive(a, x))
  {
    var jobs := Revive(a, x);
    GraphOfMeans(jobs);
    var g := GraphOf(jobs);
    assert Names(jobs) == [a, x];
    assert g[jobs[0].name] == [] && g[jobs[1].name] == [a];
    OrderedIsAcyclic(g, [a, x]);
  }

  lemma DanglingCloses(running: seq<Decl>, a: string, x: string)
    requires UniqueNames(running) && Edge(GraphOf(running), a, x) && !HasName(running, x)
    ensures IsCycle(GraphOf(Merge(running, Revive(a, x))), [a, x, a])
  {
    var config := Revive(a, x);
    var jobs := Merge(running, config);
    EdgeOf(running, a, x);
    var d :| d in running && d.name == a && x in d.after;
    NameOf(running, d);
    assert config[0].name == a && config[1].name == x;
    assert HasName(config, a);
    MergeKeepsNames(running, config);
    MergeHolds(running, config);
    assert d in jobs && config[1] in jobs;
    EdgeOf(jobs, a, x);
    EdgeOf(jobs, x, a);
    assert a in config[1].after;
    var g, p := GraphOf(jobs), [a, x, a];
    assert forall i :: 0 <= i < |p| - 1 ==> Edge(g, p[i], p[i + 1]);
  }

  /** Exactly when a reload is safe: a running acyclic job set stays acyclic under
      every valid new configuration if and only if none of its jobs names an
      upstream that is not running. */
  lemma ReloadIsSafeIffClosed(running: seq<Decl>)
    requires UniqueNames(running) && Acyclic(GraphOf(running))
    ensures Closed(GraphOf(running)) <==>
      forall config :: Accepted(config) ==> Acyclic(GraphOf(Merge(running, config)))
  {
    if Closed(GraphOf(running)) {
      forall config | Accepted(config)
        ensures Acyclic(GraphOf(Merge(running, config)))
      {
        ReloadStaysAcyclic(running, config);
      }
    } else {
      var a, x :| a in GraphOf(running) && x in GraphOf(running)[a] && x !in GraphOf(running);
      EdgeOf(running, x, a);
      DanglingCloses(running, a, x);
      ReviveIsAccepted(a, x);
      assert !Acyclic(GraphOf(Merge(running, Revive(a, x))));
    }
  }

  const FIRST := [Decl("a", ["x"]), Decl("x", [])]
  const DROPPED := [Decl("a", [])]

  lemma FirstIsAccepted()
    ensures Accepted(FIRST)
  {
    GraphOfMeans(FIRST);
    var g := GraphOf(FIRST);
    assert Names(FIRST) == ["a", "x"];
    assert g[FIRST[0].name] == ["x"] && g[FIRST[1].name] == [];
    assert ["x", "a"][..1] == ["x"];
    OrderedIsAcyclic(g, ["x", "a"]);
  }

  lemma DroppedIsAccepted()
    ensures Accepted(DROPPED)
  {
    GraphOfMeans(DROPPED);
    assert Names(DROPPED) == ["a"] && GraphOf(DROPPED)[DROPPED[0].name] == [];
    OrderedIsAcyclic(GraphOf(DROPPED), ["a"]);
  }

  lemma DropLeavesDangling()
    ensures Merge(FIRST, DROPPED) == [Decl("a", ["x"])]
  {
    assert DROPPED[0].name == "a" && FIRST[0].name == "a";
    assert HasName(DROPPED, "a") && HasName(FIRST, "a");
    assert !HasName(DROPPED, "x");
    assert FIRST[..1] == [FIRST[0]] && FIRST[..1][..0] == [] && DROPPED[..0] == [];
    assert Select(FIRST[..1], DROPPED, true) == [FIRST[0]];
    assert Select(FIRST, DROPPED, true) == [FIRST[0]];
    assert Select(DROPPED, FIRST, false) == [];
  }

  /** A reload can itself leave such a name behind, and the next one then close a
      cycle: drop `x` while `a` still runs after it, then bring `x` back after `a`. */
  lemma TwoReloadsCanCycle()
    ensures Accepted(FIRST) && Accepted(DROPPED) && Accepted(Revive("a", "x"))
    ensures !Acyclic(GraphOf(Merge(Merge(FIRST, DROPPED), Revive("a", "x"))))
  {
    FirstIsAccepted();
    DroppedIsAccepted();
    ReviveIsAccepted("a", "x");
    DropLeavesDangling();
    var one := [Decl("a", ["x"])];
    GraphOfMeans(one);
    assert Names(one) == ["a"] && one[0].name == "a";
    assert GraphOf(one)[one[0].name] == ["x"];
    DanglingCloses(one, "a", "x");
  }

  /** The part of the daemon that `reload` changes. */
  class JobTable {
    var jobs: seq<Decl>
    var since: map<string, int>

    constructor (jobs: seq<Decl>, started: int)
      requires UniqueNames(jobs)
      ensures Valid() && this.jobs == jobs
    {
      this.jobs := jobs;
      since := map d | d in jobs :: d.name := started;
      new;
      forall n ensures n in since <==> HasName(jobs, n) {
        forall d | d in jobs ensures HasName(jobs, d.name) { NameOf(jobs, d); }
        if HasName(jobs, n) {
          var i :| 0 <= i < |jobs| && jobs[i].name == n;
          assert jobs[i] in jobs;
        }
      }
    }

    ghost predicate Valid()
      reads this
    {
      UniqueNames(jobs) && forall n :: n in since <==> HasName(jobs, n)
    }

    /** `reload`: an invalid configuration changes nothing; a valid one drops the jobs
        it lacks, adds those it brings, and leaves every other job and cursor alone. */
    method Reload(config: Option<seq<Decl>>, now: int) returns (ok: bool)
      requires Valid() && (config.Some? ==> Accepted(config.value))
      modifies this
      ensures Valid() && ok == config.Some?
      ensures jobs == if ok then Merge(old(jobs), config.value) else old(jobs)
      ensures ok ==> forall d :: d in jobs <==>
                (d in old(jobs) && HasName(config.value, d.name)) || (d in config.value && !HasName(old(jobs), d.name))
      ensures !ok ==> since == old(since)
      ensures ok ==> forall n :: n in since ==> since[n] == if n in old(since) then old(since)[n] else now
    {
      if config.None? {
        return false;
      }
      MergeKeepsNames(jobs, config.value);
      MergeHolds(jobs, config.value);
      var kept, added := Select(jobs, config.value, true), ByName(Select(config.value, jobs, false));
      jobs := kept + added;
      since := map d | d in jobs :: d.name := if d.name in since then since[d.name] else now;
      forall n ensures n in since <==> HasName(jobs, n) {
        forall d | d in jobs ensures HasName(jobs, d.name) { NameOf(jobs, d); }
        if HasName(jobs, n) {
          var i :| 0 <= i < |jobs| && jobs[i].name == n;
          assert jobs[i] in jobs;
        }
      }
      ok := true;
    }
  }
}
