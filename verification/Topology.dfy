/** Neighbour relations, the walks messages take over them, and disjoint paths in graphs. */
module Topology {
  import opened Base
  import opened Ordering

  type Path = seq<Node>

  type Neighbours = map<Node, set<Node>>

  function NbrsOf(nbrs: Neighbours, p: Node): set<Node> { if p in nbrs then nbrs[p] else {} }

  /** |u| sends to |w| and |w| listens to |u|. */
  predicate Link(nbrs: Neighbours, u: Node, w: Node) {
    w in NbrsOf(nbrs, u) && u in NbrsOf(nbrs, w) && u != w
  }

  /** A simple walk from |source| that stays within |via|. */
  predicate SimpleWalk(nbrs: Neighbours, via: set<Node>, source: Node, p: Path) {
    && p != [] && p[0] == source && Distinct(p)
    && (forall i :: 0 <= i < |p| ==> p[i] in via)
    && (forall i :: 0 <= i < |p| - 1 ==> Link(nbrs, p[i], p[i + 1]))
  }

  /** A simple path from |source| to |v|, |v| itself left off, as processes record it. */
  predicate Trail(nbrs: Neighbours, via: set<Node>, source: Node, p: Path, v: Node) {
    SimpleWalk(nbrs, via, source, p) && v !in p && Link(nbrs, p[|p| - 1], v)
  }

  lemma ExtendTrail(nbrs: Neighbours, via: set<Node>, source: Node, p: Path, v: Node)
    requires v in via
    ensures Trail(nbrs, via, source, p, v) ==> SimpleWalk(nbrs, via, source, p + [v])
    ensures SimpleWalk(nbrs, via, source, p + [v]) && p != [] ==> Trail(nbrs, via, source, p, v)
  {
    var longer := p + [v];
    if SimpleWalk(nbrs, via, source, longer) && p != [] {
      assert longer[|p|] == v && longer[|p| - 1] == p[|p| - 1];
      assert Link(nbrs, longer[|p| - 1], longer[|p|]);
      assert forall i :: 0 <= i < |p| ==> longer[i] == p[i];
      assert forall i :: 0 <= i < |p| - 1 ==> Link(nbrs, longer[i], longer[i + 1]);
    }
  }

  // ----- graphs

  /** An undirected edge, given in either direction. */
  datatype Edge = Edge(a: Node, b: Node)

  type Graph = set<Edge>

  predicate Adjacent(g: Graph, u: Node, w: Node) { Edge(u, w) in g || Edge(w, u) in g }

  predicate IsPath(g: Graph, p: Path, s: Node, t: Node) {
    && |p| >= 2 && p[0] == s && p[|p| - 1] == t && Distinct(p)
    && forall i :: 0 <= i < |p| - 1 ==> Adjacent(g, p[i], p[i + 1])
  }

  function Inner(p: Path, s: Node, t: Node): set<Node> { Elems(p) - {s} - {t} }

  /** Different paths that meet nowhere between their ends. */
  predicate AreDisjoint(g: Graph, s: Node, t: Node, ps: seq<Path>) {
    && (forall i :: 0 <= i < |ps| ==> IsPath(g, ps[i], s, t))
    && (forall i, j :: 0 <= i < j < |ps| ==> ps[i] != ps[j] && Inner(ps[i], s, t) !! Inner(ps[j], s, t))
  }

  /** At least |k| internally disjoint paths run from |s| to |t|: what a local node
      connectivity of at least |k| means. */
  ghost predicate DisjointPaths(g: Graph, s: Node, t: Node, k: nat) {
    exists ps: seq<Path> :: |ps| == k && AreDisjoint(g, s, t, ps)
  }

  /** More edges keep all paths. */
  lemma DisjointPathsMonotone(g: Graph, h: Graph, s: Node, t: Node, k: nat)
    requires DisjointPaths(g, s, t, k)
    requires forall p: Path :: IsPath(g, p, s, t) ==> IsPath(h, p, s, t)
    ensures DisjointPaths(h, s, t, k)
  {
    var ps: seq<Path> :| |ps| == k && AreDisjoint(g, s, t, ps);
    assert AreDisjoint(h, s, t, ps);
  }
}
