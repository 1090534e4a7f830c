/** The two ways of deciding whether enough disjoint paths were heard: the greedy search of the
    naive flood, and node connectivity of the graph the recorded paths span. */
module DisjointSearch {
  import opened Base
  import opened Ordering
  import opened Topology
  import opened DolevNaive

  function FullPath(path: Path, source: Node, me: Node): Path { [source] + path + [me] }

  /** The edges between successive entries of a walk. */
  function WalkEdges(walk: Path): Graph {
    if |walk| < 2 then {}
    else WalkEdges(walk[..|walk| - 1]) + {Edge(walk[|walk| - 2], walk[|walk| - 1])}
  }

  lemma {:induction false} WalkHas(walk: Path, i: nat)
    requires i < |walk| - 1
    ensures Edge(walk[i], walk[i + 1]) in WalkEdges(walk)
  {
    if i < |walk| - 2 {
      WalkHas(walk[..|walk| - 1], i);
    }
  }

  lemma {:induction false} WalkOnly(walk: Path, e: Edge) returns (i: nat)
    requires e in WalkEdges(walk)
    ensures i < |walk| - 1 && e == Edge(walk[i], walk[i + 1])
  {
    var n := |walk| - 1;
    if e in WalkEdges(walk[..n]) {
      i := WalkOnly(walk[..n], e);
    } else {
      i := n - 1;
    }
  }

  function UnionGraph(paths: seq<Path>, source: Node, me: Node): Graph {
    if paths == [] then {}
    else UnionGraph(paths[..|paths| - 1], source, me) + WalkEdges(FullPath(paths[|paths| - 1], source, me))
  }

  lemma {:induction false} UnionHas(paths: seq<Path>, source: Node, me: Node, i: nat)
    requires i < |paths|
    ensures WalkEdges(FullPath(paths[i], source, me)) <= UnionGraph(paths, source, me)
    decreases |paths|
  {
    hide WalkEdges, FullPath;
    if i < |paths| - 1 {
      UnionHas(paths[..|paths| - 1], source, me, i);
    }
  }

  lemma {:induction false} UnionOnly(paths: seq<Path>, source: Node, me: Node, e: Edge) returns (i: nat)
    requires e in UnionGraph(paths, source, me)
    ensures i < |paths| && e in WalkEdges(FullPath(paths[i], source, me))
    decreases |paths|
  {
    hide WalkEdges, FullPath;
    var n := |paths| - 1;
    if e in WalkEdges(FullPath(paths[n], source, me)) {
      i := n;
    } else {
      i := UnionOnly(paths[..n], source, me, e);
    }
  }

  /** A path the receiver may rely on: simple, not through the receiver, and with the source, if
      it occurs at all, in front. Honest floods record only such paths. */
  predicate WellShaped(path: Path, source: Node, me: Node) {
    && path != [] && Distinct(path) && me !in path && me != source
    && (source in path ==> path[0] == source)
  }

  /** The simple source-to-receiver path inside a recorded one. */
  function Walk(path: Path, source: Node, me: Node): Path
  {
    if path != [] && path[0] == source then path + [me] else [source] + path + [me]
  }

  lemma WalkIsPath(path: Path, source: Node, me: Node, g: Graph)
    requires WellShaped(path, source, me) && WalkEdges(FullPath(path, source, me)) <= g
    ensures IsPath(g, Walk(path, source, me), source, me)
    ensures Inner(Walk(path, source, me), source, me) == Internal(path, source, me)
  {
    var w, full := Walk(path, source, me), FullPath(path, source, me);
    var shift := if path[0] == source then 1 else 0;
    forall i | 0 <= i < |w| - 1
      ensures Adjacent(g, w[i], w[i + 1])
    {
      assert w[i] == full[i + shift] && w[i + 1] == full[i + shift + 1];
      WalkHas(full, i + shift);
    }
    assert Elems(w) == Elems(path) + {source, me};
  }

  /** Two recorded paths that owe their message to nobody in between are the same path. */
  lemma DirectIsUnique(path: Path, source: Node, me: Node)
    requires WellShaped(path, source, me) && Internal(path, source, me) == {}
    ensures path == [source]
  {
    forall i | 0 <= i < |path|
      ensures path[i] == source
    {
      assert path[i] in Elems(path) && path[i] !in Internal(path, source, me);
    }
    assert path[0] in Elems(path);
    assert Elems(path) == {source};
    DistinctSize(path);
  }

  lemma WalksDiffer(paths: seq<Path>, i: nat, j: nat, source: Node, me: Node, g: Graph)
    requires Distinct(paths) && i < j < |paths|
    requires WellShaped(paths[i], source, me) && WellShaped(paths[j], source, me)
    requires WalkEdges(FullPath(paths[i], source, me)) <= g && WalkEdges(FullPath(paths[j], source, me)) <= g
    requires Internal(paths[i], source, me) !! Internal(paths[j], source, me)
    ensures Walk(paths[i], source, me) != Walk(paths[j], source, me)
  {
    hide Walk, Internal, WellShaped, WalkEdges, FullPath;
    WalkIsPath(paths[i], source, me, g);
    WalkIsPath(paths[j], source, me, g);
    if Walk(paths[i], source, me) == Walk(paths[j], source, me) {
      DirectIsUnique(paths[i], source, me);
      DirectIsUnique(paths[j], source, me);
    }
  }

  /** The greedy search refines connectivity: whenever it accepts, the union graph has f+1
      internally disjoint paths from the source. */
  lemma GreedyRefinesConnectivity(paths: seq<Path>, source: Node, me: Node, f: nat)
    requires Distinct(paths) && forall i :: 0 <= i < |paths| ==> WellShaped(paths[i], source, me)
    requires Accepts(paths, source, me, f)
    ensures DisjointPaths(UnionGraph(paths, source, me), source, me, f + 1)
  {
    hide Picks, UnionGraph, Internal, IsPath, Inner, WellShaped, WalkEdges, FullPath;
    var g, picks := UnionGraph(paths, source, me), Picks(paths, source, me);
    var ps := seq(f + 1, k requires 0 <= k < f + 1 => Walk(paths[picks[k]], source, me));
    forall i | 0 <= i < |ps|
      ensures IsPath(g, ps[i], source, me) && Inner(ps[i], source, me) == Internal(paths[picks[i]], source, me)
    {
      UnionHas(paths, source, me, picks[i]);
      WalkIsPath(paths[picks[i]], source, me, g);
    }
    forall i, j | 0 <= i < j < |ps|
      ensures ps[i] != ps[j] && Inner(ps[i], source, me) !! Inner(ps[j], source, me)
    {
      PicksDisjoint(paths, source, me, i, j);
      UnionHas(paths, source, me, picks[i]);
      UnionHas(paths, source, me, picks[j]);
      WalksDiffer(paths, picks[i], picks[j], source, me, g);
    }
    assert AreDisjoint(g, source, me, ps);
  }

  /** Both tests stay passed as further paths are recorded. */
  lemma BothChecksMonotone(paths: seq<Path>, more: seq<Path>, source: Node, me: Node, f: nat)
    ensures Accepts(paths, source, me, f) ==> Accepts(paths + more, source, me, f)
    ensures DisjointPaths(UnionGraph(paths, source, me), source, me, f + 1)
        ==> DisjointPaths(UnionGraph(paths + more, source, me), source, me, f + 1)
  {
    hide Picks;
    assert (paths + more)[..|paths|] == paths;
    PicksGrow(paths + more, |paths|, source, me);
    UnionGrows(paths, more, source, me);
    if DisjointPaths(UnionGraph(paths, source, me), source, me, f + 1) {
      DisjointPathsMonotone(UnionGraph(paths, source, me), UnionGraph(paths + more, source, me), source, me, f + 1);
    }
  }

  lemma {:induction false} UnionGrows(paths: seq<Path>, more: seq<Path>, source: Node, me: Node)
    ensures UnionGraph(paths, source, me) <= UnionGraph(paths + more, source, me)
    decreases |more|
  {
    if more == [] {
      assert paths + more == paths;
    } else {
      var rest := more[..|more| - 1];
      UnionGrows(paths, rest, source, me);
      assert (paths + more)[..|paths + more| - 1] == paths + rest;
    }
  }

  /** The converse fails, and greedy acceptance depends on the order of arrival: a roundabout
      path heard first blocks two disjoint ones, which connectivity still sees. */
  lemma GreedyIsIncomplete(s: Node, a: Node, b: Node, me: Node)
    requires Distinct([s, a, b, me])
    ensures !Accepts([[s, a, b], [s, a], [s, b]], s, me, 1)
    ensures Accepts([[s, a], [s, b], [s, a, b]], s, me, 1)
    ensures DisjointPaths(UnionGraph([[s, a, b], [s, a], [s, b]], s, me), s, me, 2)
  {
    hide Picks, UnionGraph;
    assert [s, a, b, me][0] == s && [s, a, b, me][1] == a && [s, a, b, me][2] == b && [s, a, b, me][3] == me;
    LongFirst(s, a, b, me);
    ShortFirst(s, a, b, me);
    BothRoutes(s, a, b, me);
  }

  lemma BothRoutes(s: Node, a: Node, b: Node, me: Node)
    requires s != a && s != b && a != b && me !in {s, a, b}
    ensures DisjointPaths(UnionGraph([[s, a, b], [s, a], [s, b]], s, me), s, me, 2)
  {
    hide UnionGraph, WalkEdges;
    var g := UnionGraph([[s, a, b], [s, a], [s, b]], s, me);
    UnionHas([[s, a, b], [s, a], [s, b]], s, me, 1);
    UnionHas([[s, a, b], [s, a], [s, b]], s, me, 2);
    WalkIsPath([s, a], s, me, g);
    WalkIsPath([s, b], s, me, g);
    assert Internal([s, a], s, me) == {a} && Internal([s, b], s, me) == {b};
    var ps: seq<Path> := [[s, a] + [me], [s, b] + [me]];
    assert ps[0][1] == a && ps[1][1] == b;
    assert AreDisjoint(g, s, me, ps);
  }

  lemma LongFirst(s: Node, a: Node, b: Node, me: Node)
    requires s != a && s != b && a != b && me !in {s, a, b}
    ensures !Accepts([[s, a, b], [s, a], [s, b]], s, me, 1)
  {
    var paths: seq<Path> := [[s, a, b], [s, a], [s, b]];
    var two, one := paths[..2], paths[..1];
    assert two == [[s, a, b], [s, a]] && one == two[..1] == [[s, a, b]] && one[..0] == [];
    assert a in Internal([s, a, b], s, me) * Internal([s, a], s, me);
    assert b in Internal([s, a, b], s, me) * Internal([s, b], s, me);
    assert Picks(one, s, me) == [0];
    assert Internal(one[[0][0]], s, me) * Internal(two[1], s, me) != {};
    assert Internal(two[[0][0]], s, me) * Internal(paths[2], s, me) != {};
    assert Clashes(one, [0], two[1], s, me);
    assert Picks(two, s, me) == [0];
    assert Clashes(two, [0], paths[2], s, me);
    assert Picks(paths, s, me) == [0];
  }

  lemma ShortFirst(s: Node, a: Node, b: Node, me: Node)
    requires s != a && s != b && a != b && me !in {s, a, b}
    ensures Accepts([[s, a], [s, b], [s, a, b]], s, me, 1)
  {
    var paths: seq<Path> := [[s, a], [s, b], [s, a, b]];
    var two, one := paths[..2], paths[..1];
    assert two == [[s, a], [s, b]] && one == two[..1] == [[s, a]] && one[..0] == [];
    assert Internal([s, a], s, me) == {a} && Internal([s, b], s, me) == {b};
    assert Picks(one, s, me) == [0];
    assert Picks(two, s, me) == [0, 1];
    PicksGrow(paths, 2, s, me);
  }

  /** The shape condition is needed: a path with the source in the middle lets the greedy search
      count the direct link twice. */
  lemma ShapeIsNeeded(s: Node, a: Node, me: Node)
    requires Distinct([s, a, me])
    ensures Accepts([[a, s], [s]], s, me, 1)
    ensures !DisjointPaths(UnionGraph([[a, s], [s]], s, me), s, me, 2)
  {
    assert [s, a, me][0] == s && [s, a, me][1] == a && [s, a, me][2] == me;
    var paths: seq<Path> := [[a, s], [s]];
    assert paths[..1] == [[a, s]] && paths[..1][..0] == [];
    assert Internal([s], s, me) == {};
    assert Picks(paths[..1], s, me) == [0];
    var g := UnionGraph(paths, s, me);
    forall ps: seq<Path> | |ps| == 2 && IsPath(g, ps[0], s, me) && IsPath(g, ps[1], s, me)
      ensures ps[0] == ps[1]
    {
      OnlyDirectPath(s, a, me, ps[0]);
      OnlyDirectPath(s, a, me, ps[1]);
    }
  }

  lemma OnlyDirectPath(s: Node, a: Node, me: Node, p: Path)
    requires s != a && me !in {s, a} && IsPath(UnionGraph([[a, s], [s]], s, me), p, s, me)
    ensures p == [s, me]
  {
    var g, n := UnionGraph([[a, s], [s]], s, me), |p| - 1;
    assert Adjacent(g, p[n - 1], p[n]);
    forall e: Edge | e in g
      ensures e.a != me && (e.b == me ==> e.a == s)
    {
      var i := UnionOnly([[a, s], [s]], s, me, e);
      var j := WalkOnly(FullPath([[a, s], [s]][i], s, me), e);
    }
    assert p[n - 1] == p[0];
  }
}
