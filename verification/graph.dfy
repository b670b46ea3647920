/** The dependency graph: the checks `load_config` ends with, the cycle search they
    make possible, and what `reload` does to an accepted graph. */
module Dependencies {
  import opened Models

  /** What the graph sees of a job. */
  datatype Decl = Decl(name: string, after: seq<string>)

  type Graph = map<string, seq<string>>

  ghost predicate Closed(g: Graph) {
    forall n, up :: n in g && up in g[n] ==> up in g
  }

  predicate Edge(g: Graph, n: string, up: string) { n in g && up in g[n] }

  ghost predicate IsWalk(g: Graph, p: seq<string>) {
    && p != []
    && forall i :: 0 <= i < |p| - 1 ==> Edge(g, p[i], p[i + 1])
  }

  /** A closed walk along `after` edges. */
  ghost predicate IsCycle(g: Graph, p: seq<string>) {
    |p| >= 2 && p[0] == p[|p| - 1] && IsWalk(g, p)
  }

  ghost predicate Acyclic(g: Graph) {
    forall p :: !IsCycle(g, p)
  }

  // --- topological orders ------------------------------------------------------------

  ghost predicate Distinct(s: seq<string>) {
    forall i, j :: 0 <= i < j < |s| ==> s[i] != s[j]
  }

  /** Every upstream of a node in the order comes before it. */
  ghost predicate IsTopological(g: Graph, order: seq<string>) {
    && Distinct(order)
    && forall j, up :: 0 <= j < |order| && Edge(g, order[j], up) ==> up in order[..j]
  }

  lemma {:induction false} WalkDescends(g: Graph, order: seq<string>, p: seq<string>, j: nat)
    requires IsTopological(g, order) && IsWalk(g, p) && j < |order| && p[0] == order[j]
    ensures |p| > 1 ==> p[|p| - 1] in order[..j]
    decreases |p|
  {
    if |p| > 1 {
      assert Edge(g, p[0], p[1]);
      assert p[1] in order[..j];
      var m :| 0 <= m < j && order[m] == p[1];
      var tail := p[1..];
      forall i | 0 <= i < |tail| - 1
        ensures Edge(g, tail[i], tail[i + 1])
      {
        assert Edge(g, p[i + 1], p[i + 1 + 1]);
      }
      WalkDescends(g, order, tail, m);
      assert |tail| > 1 ==> tail[|tail| - 1] in order[..m];
    }
  }

  /** A graph whose nodes can all be ordered has no cycle. */
  lemma OrderedIsAcyclic(g: Graph, order: seq<string>)
    requires IsTopological(g, order) && forall n :: n in g ==> n in order
    ensures Acyclic(g)
  {
    forall p
      ensures !IsCycle(g, p)
    {
      if |p| >= 2 && IsWalk(g, p) {
        assert Edge(g, p[0], p[0 + 1]);
        var j :| 0 <= j < |order| && order[j] == p[0];
        WalkDescends(g, order, p, j);
        assert p[0] !in order[..j];
      }
    }
  }

  // --- the search ----------------------------------------------------------------------

  datatype Colour = White | Grey | Black

  /** `_reject_cycles`: the shared `colour` map and the recursive `visit`. */
  class CycleSearch {
    const graph: Graph
    var colour: map<string, Colour>
    /** The nodes in the order they turned black. */
    ghost var finished: seq<string>

    constructor (graph: Graph)
      requires Closed(graph)
      ensures this.graph == graph && Valid([]) && finished == []
      ensures colour == map n | n in graph :: White
    {
      this.graph := graph;
      colour := map n | n in graph :: White;
      finished := [];
    }

    /** The GREY nodes are exactly those on `path`; the finished ones are the BLACK
        ones, in an order in which upstreams come first; `path` is a walk. */
    ghost predicate Valid(path: seq<string>)
      reads this
    {
      && Closed(graph) && colour.Keys == graph.Keys
      && (forall n :: n in graph ==> (colour[n] == Grey <==> n in path))
      && (forall n :: n in finished <==> n in graph && colour[n] == Black)
      && IsTopological(graph, finished)
      && Distinct(path) && (forall n :: n in path ==> n in graph)
      && (path != [] ==> IsWalk(graph, path))
    }

    ghost function Whites(): set<string>
      reads this
    {
      set n | n in colour && colour[n] == White
    }

    /** `visit(node, path)`, where `path` ends in `node`: on return `node` is black and
        nothing on the path changed; or a real cycle is reported. */
    method Visit(node: string, path: seq<string>) returns (cycle: Option<seq<string>>)
      requires node in graph && node in colour && colour[node] == White
      requires path != [] && path[|path| - 1] == node && node !in path[..|path| - 1]
      requires Valid(path[..|path| - 1]) && IsWalk(graph, path)
      modifies this
      ensures cycle.Some? ==> IsCycle(graph, cycle.value)
      ensures cycle.None? ==> Valid(path[..|path| - 1]) && node in finished && old(finished) <= finished
      ensures Whites() <= old(Whites())
      decreases |Whites()|, 0
    {
      ghost var whites := Whites();
      Paint(node, path);
      for i := 0 to |graph[node]|
        invariant Valid(path) && old(finished) <= finished
        invariant Whites() <= whites - {node}
        invariant forall m :: 0 <= m < i ==> graph[node][m] in finished
      {
        Smaller(Whites(), whites, node);
        cycle := Follow(graph[node][i], path);
        if cycle.Some? {
          return;
        }
      }
      Blacken(node, path);
      cycle := None;
    }

    /** The body of `visit`'s loop: one upstream of the last node on the path. */
    method Follow(up: string, path: seq<string>) returns (cycle: Option<seq<string>>)
      requires Valid(path) && path != [] && Edge(graph, path[|path| - 1], up)
      modifies this
      ensures cycle.Some? ==> IsCycle(graph, cycle.value)
      ensures cycle.None? ==> Valid(path) && up in finished && old(finished) <= finished
      ensures Whites() <= old(Whites())
      decreases |Whites()|, 1
    {
      if colour[up] == Grey {
        var start := IndexOf(path, up);
        CloseWalk(graph, path, start, up);
        return Some(path[start..] + [up]);
      }
      cycle := None;
      if colour[up] == White {
        ExtendWalk(graph, path, up);
        assert (path + [up])[..|path|] == path;
        cycle := Visit(up, path + [up]);
      }
    }

    /** `colour[node] = GREY`: the node joins the path. */
    method Paint(node: string, path: seq<string>)
      requires node in graph && node in colour && colour[node] == White
      requires path != [] && path[|path| - 1] == node && node !in path[..|path| - 1]
      requires Valid(path[..|path| - 1]) && IsWalk(graph, path)
      modifies this`colour
      ensures Valid(path) && Whites() == old(Whites()) - {node}
    {
      assert path == path[..|path| - 1] + [node];
      colour := colour[node := Grey];
    }

    lemma Smaller(s: set<string>, whites: set<string>, node: string)
      requires s <= whites - {node} && node in whites
      ensures |s| < |whites|
    {
      CardSubset(s, whites - {node});
    }

    /** `colour[node] = BLACK`, once every upstream is. */
    method Blacken(node: string, path: seq<string>)
      requires Valid(path) && path != [] && path[|path| - 1] == node
      requires forall m :: 0 <= m < |graph[node]| ==> graph[node][m] in finished
      modifies this
      ensures Valid(path[..|path| - 1]) && finished == old(finished) + [node]
      ensures Whites() <= old(Whites())
    {
      assert node in path && colour[node] == Grey && node !in finished;
      assert path == path[..|path| - 1] + [node];
      colour := colour[node := Black];
      finished := finished + [node];
      forall j, up | 0 <= j < |finished| && Edge(graph, finished[j], up)
        ensures up in finished[..j]
      {
        if j == |finished| - 1 {
          var m :| 0 <= m < |graph[node]| && graph[node][m] == up;
          assert finished[..j] == old(finished);
        } else {
          assert Edge(graph, old(finished)[j], up);
          assert finished[..j] == old(finished)[..j];
        }
      }
      var rest := path[..|path| - 1];
      forall i | 0 <= i < |rest| - 1
        ensures Edge(graph, rest[i], rest[i + 1])
      {
        assert Edge(graph, path[i], path[i + 1]);
      }
    }

    /** `path.index(up)`: a GREY node is always on the path. */
    method IndexOf(path: seq<string>, up: string) returns (i: nat)
      requires up in path
      ensures i < |path| && path[i] == up && up !in path[..i]
    {
      i := 0;
      while path[i] != up
        invariant i < |path| && up !in path[..i] && up in path[i..]
        decreases |path| - i
      {
        i := i + 1;
      }
    }

    /** The outer loop: every node still white is visited on a path of its own. */
    method Search(names: seq<string>) returns (cycle: Option<seq<string>>)
      requires Valid([]) && (forall n :: n in graph <==> n in names)
      modifies this
      ensures cycle.None? <==> Acyclic(graph)
      ensures cycle.Some? ==> IsCycle(graph, cycle.value)
      ensures cycle.None? ==> IsTopological(graph, finished) && forall n :: n in graph ==> n in finished
    {
      for i := 0 to |names|
        invariant Valid([])
        invariant forall m :: 0 <= m < i ==> names[m] in finished
      {
        var name := names[i];
        if colour[name] == White {
          assert [name][..0] == [];
          cycle := Visit(name, [name]);
          if cycle.Some? {
            return;
          }
        }
        assert name in finished;
      }
      OrderedIsAcyclic(graph, finished);
      cycle := None;
    }
  }

  lemma {:induction false} CardSubset(a: set<string>, b: set<string>)
    requires a <= b
    ensures |a| <= |b|
    decreases |a|
  {
    if x :| x in a {
      CardSubset(a - {x}, b - {x});
    }
  }

  lemma ExtendWalk(g: Graph, path: seq<string>, up: string)
    requires IsWalk(g, path) && Edge(g, path[|path| - 1], up)
    ensures IsWalk(g, path + [up])
  {
    var q := path + [up];
    forall i | 0 <= i < |q| - 1
      ensures Edge(g, q[i], q[i + 1])
    {
      if i < |path| - 1 {
        assert Edge(g, path[i], path[i + 1]);
      }
    }
  }

  lemma CloseWalk(g: Graph, path: seq<string>, start: nat, up: string)
    requires IsWalk(g, path) && start < |path| && path[start] == up && Edge(g, path[|path| - 1], up)
    ensures IsCycle(g, path[start..] + [up])
  {
    ExtendWalk(g, path, up);
    var q := path[start..] + [up];
    forall i | 0 <= i < |q| - 1
      ensures Edge(g, q[i], q[i + 1])
    {
      assert Edge(g, (path + [up])[start + i], (path + [up])[start + i + 1]);
    }
  }

  // --- load_config -----------------------------------------------------------------------

  function GraphOf(jobs: seq<Decl>): Graph {
    if jobs == [] then map[] else GraphOf(jobs[..|jobs| - 1])[jobs[|jobs| - 1].name := jobs[|jobs| - 1].after]
  }

  ghost predicate UniqueNames(jobs: seq<Decl>) {
    forall i, j :: 0 <= i < j < |jobs| ==> jobs[i].name != jobs[j].name
  }

  function Names(jobs: seq<Decl>): seq<string> {
    seq(|jobs|, i requires 0 <= i < |jobs| => jobs[i].name)
  }

  lemma {:induction false} GraphOfMeans(jobs: seq<Decl>)
    requires UniqueNames(jobs)
    ensures forall n :: n in GraphOf(jobs) <==> n in Names(jobs)
    ensures forall i :: 0 <= i < |jobs| ==> jobs[i].name in GraphOf(jobs) && GraphOf(jobs)[jobs[i].name] == jobs[i].after
  {
    if jobs != [] {
      var init := jobs[..|jobs| - 1];
      GraphOfMeans(init);
      assert Names(jobs) == Names(init) + [jobs[|jobs| - 1].name];
      forall i | 0 <= i < |jobs|
        ensures jobs[i].name in GraphOf(jobs) && GraphOf(jobs)[jobs[i].name] == jobs[i].after
      {
        if i < |jobs| - 1 { assert init[i] == jobs[i]; }
      }
    }
  }

  ghost predicate Accepted(jobs: seq<Decl>) {
    UniqueNames(jobs) && Closed(GraphOf(jobs)) && Acyclic(GraphOf(jobs))
  }

  datatype ConfigError = Duplicate(name: string) | Unknown(job: string, dep: string) | Cycle(path: seq<string>)

  /** The `names` set of `load_config`, or the first name that is defined twice. */
  method CheckNames(jobs: seq<Decl>) returns (names: set<string>, twice: Option<string>)
    ensures twice.None? <==> UniqueNames(jobs)
    ensures twice.Some? ==> exists i, j :: 0 <= i < j < |jobs| && jobs[i].name == jobs[j].name == twice.value
    ensures twice.None? ==> forall n :: n in names <==> n in Names(jobs)
  {
    names := {};
    for i := 0 to |jobs|
      invariant forall m, n :: 0 <= m < n < i ==> jobs[m].name != jobs[n].name
      invariant forall m :: 0 <= m < i ==> jobs[m].name in names
      invariant forall n :: n in names ==> exists m :: 0 <= m < i && jobs[m].name == n
    {
      if jobs[i].name in names {
        return names, Some(jobs[i].name);
      }
      names := names + {jobs[i].name};
    }
    forall n
      ensures n in names <==> n in Names(jobs)
    {
      if n in names {
        var m :| 0 <= m < |jobs| && jobs[m].name == n;
        assert Names(jobs)[m] == n;
      }
    }
    twice := None;
  }

  /** The first job, in order, with an upstream that is no job. */
  method CheckKnown(jobs: seq<Decl>, names: set<string>) returns (unknown: Option<(string, string)>)
    ensures unknown.None? <==> forall m, up :: 0 <= m < |jobs| && up in jobs[m].after ==> up in names
    ensures unknown.Some? ==>
      exists m :: 0 <= m < |jobs| && jobs[m].name == unknown.value.0 && unknown.value.1 in jobs[m].after
    ensures unknown.Some? ==> unknown.value.1 !in names
  {
    for i := 0 to |jobs|
      invariant forall m, up :: 0 <= m < i && up in jobs[m].after ==> up in names
    {
      for k := 0 to |jobs[i].after|
        invariant forall m :: 0 <= m < k ==> jobs[i].after[m] in names
      {
        if jobs[i].after[k] !in names {
          return Some((jobs[i].name, jobs[i].after[k]));
        }
      }
    }
    unknown := None;
  }

  lemma KnownMeansClosed(jobs: seq<Decl>)
    requires UniqueNames(jobs)
    ensures Closed(GraphOf(jobs)) <==> forall m, up :: 0 <= m < |jobs| && up in jobs[m].after ==> up in Names(jobs)
  {
    GraphOfMeans(jobs);
    if forall m, up :: 0 <= m < |jobs| && up in jobs[m].after ==> up in Names(jobs) {
      forall n, up | n in GraphOf(jobs) && up in GraphOf(jobs)[n]
        ensures up in GraphOf(jobs)
      {
        var m :| 0 <= m < |jobs| && Names(jobs)[m] == n;
        assert GraphOf(jobs)[jobs[m].name] == jobs[m].after;
      }
    }
  }

  lemma GraphNodes(jobs: seq<Decl>, n: string)
    requires UniqueNames(jobs)
    ensures n in GraphOf(jobs) <==> n in Names(jobs)
  {
    GraphOfMeans(jobs);
  }

  /** What is wrong with a configuration, as the error says. */
  ghost predicate Explains(jobs: seq<Decl>, e: ConfigError) {
    match e
    case Duplicate(n) => exists i, j :: 0 <= i < j < |jobs| && jobs[i].name == jobs[j].name == n
    case Unknown(j, dep) =>
      && UniqueNames(jobs)
      && (exists m :: 0 <= m < |jobs| && jobs[m].name == j && dep in jobs[m].after)
      && forall m :: 0 <= m < |jobs| ==> jobs[m].name != dep
    case Cycle(path) => UniqueNames(jobs) && Closed(GraphOf(jobs)) && IsCycle(GraphOf(jobs), path)
  }

  /** `_reject_cycles`: raises exactly when the graph has a cycle, and reports one. */
  method RejectCycles(jobs: seq<Decl>) returns (cycle: Option<seq<string>>)
    requires UniqueNames(jobs) && Closed(GraphOf(jobs))
    ensures cycle.None? <==> Acyclic(GraphOf(jobs))
    ensures cycle.Some? ==> IsCycle(GraphOf(jobs), cycle.value)
  {
    forall n ensures n in GraphOf(jobs) <==> n in Names(jobs) {
      GraphNodes(jobs, n);
    }
    var search := new CycleSearch(GraphOf(jobs));
    cycle := search.Search(Names(jobs));
  }

  /** The last checks of `load_config`: a configuration is accepted exactly when its
      names are unique, every upstream is a job, and the graph has no cycle; what is
      reported otherwise is so. */
  method CheckJobs(jobs: seq<Decl>) returns (r: Option<ConfigError>)
    ensures r.None? <==> Accepted(jobs)
    ensures r.Some? ==> Explains(jobs, r.value)
  {
    var names, twice := CheckNames(jobs);
    if twice.Some? {
      return Some(Duplicate(twice.value));
    }
    KnownMeansClosed(jobs);
    var unknown := CheckKnown(jobs, names);
    if unknown.Some? {
      forall m | 0 <= m < |jobs|
        ensures jobs[m].name != unknown.value.1
      {
        assert Names(jobs)[m] in Names(jobs);
      }
      return Some(Unknown(unknown.value.0, unknown.value.1));
    }
    var cycle := RejectCycles(jobs);
    return if cycle.None? then None else Some(Cycle(cycle.value));
  }
}
