/** For every fault budget above zero, a topology with enough disjoint paths in which a process
    starves although everybody is honest: the source reaches f+1 neighbours, and a process behind
    them, which hears one of them first, announces EMPTY and is then passed over by the others. */
module DolevStarvation {
  import opened Base
  import opened Ordering
  import opened Topology
  import opened Dolev
  import opened DolevEvidence
  import opened DolevTermination
  import opened DolevFirstHand

  const SOURCE := Node(0)
  const FAR := Node(1)

  function Middle(i: nat): Node { Node(2 + i) }

  function Middles(n: nat): set<Node> {
    if n == 0 then {} else Middles(n - 1) + {Middle(n - 1)}
  }

  lemma {:induction false} MiddlesAre(n: nat)
    ensures forall x :: x in Middles(n) ==> 2 <= x.rank < 2 + n
    ensures forall i: nat :: i < n ==> Middle(i) in Middles(n)
  {
    if n > 0 {
      MiddlesAre(n - 1);
    }
  }

  function Everybody(f: nat): set<Node> { {SOURCE, FAR} + Middles(f + 1) }

  /** A fan of f+1 routes of two hops each. */
  function Fan(f: nat): Config {
    Config(Everybody(f),
           map p | p in Everybody(f) :: if p == SOURCE || p == FAR then Middles(f + 1) else {SOURCE, FAR},
           map p | p in Everybody(f) :: Sorted(Everybody(f) - {p}),
           f, SOURCE, false, {}, false)
  }

  lemma FanPeers(f: nat, p: Node)
    requires p in Everybody(f)
    ensures PeersOf(Fan(f), p) == Sorted(Everybody(f) - {p})
    ensures Distinct(PeersOf(Fan(f), p)) && Elems(PeersOf(Fan(f), p)) == Everybody(f) - {p}
  {
    hide Sorted, Middles, Distinct, Elems;
    SortedDistinct(Everybody(f) - {p});
  }

  lemma FanIsLegal(f: nat)
    ensures Legal(Fan(f)) && Acquainted(Fan(f))
  {
    hide Sorted, Middles, Distinct, PeersOf;
    var c := Fan(f);
    forall p | p in c.nodes
      ensures Distinct(PeersOf(c, p)) && Elems(PeersOf(c, p)) == c.nodes - {p}
    {
      FanPeers(f, p);
    }
    assert forall p, q :: p in c.nodes && q in PeersOf(c, p) ==> q in Elems(PeersOf(c, p));
  }

  lemma FanNbrs(f: nat, p: Node)
    requires p in Everybody(f)
    ensures NbrsOf(Fan(f).nbrs, p) == if p == SOURCE || p == FAR then Middles(f + 1) else {SOURCE, FAR}
  {
    hide Sorted, Middles;
  }

  lemma FanLinks(f: nat, i: nat)
    requires i <= f
    ensures Link(Fan(f).nbrs, SOURCE, Middle(i)) && Link(Fan(f).nbrs, Middle(i), FAR)
    ensures Middle(i) in Everybody(f) && Middle(i) !in {SOURCE, FAR}
  {
    hide Fan, Middles, NbrsOf;
    MiddlesAre(f + 1);
    FanNbrs(f, SOURCE);
    FanNbrs(f, FAR);
    FanNbrs(f, Middle(i));
  }

  function Route(i: nat): Path { [SOURCE, Middle(i), FAR] }

  lemma RouteIsPath(f: nat, i: nat)
    requires i <= f
    ensures IsPath(RealGraph(Fan(f)), Route(i), SOURCE, FAR) && Inner(Route(i), SOURCE, FAR) == {Middle(i)}
  {
    hide Fan;
    FanLinks(f, i);
    FanNodes(f);
    assert Edge(SOURCE, Middle(i)) in RealGraph(Fan(f)) && Edge(Middle(i), FAR) in RealGraph(Fan(f));
    assert Elems(Route(i)) == {SOURCE, Middle(i), FAR};
  }

  lemma FanNodes(f: nat)
    ensures Fan(f).nodes == Everybody(f)
  {
  }

  lemma ManyRoutes(f: nat)
    ensures DisjointPaths(RealGraph(Fan(f)), SOURCE, FAR, f + 1)
  {
    hide Fan, RealGraph, IsPath, Inner;
    var ps := seq(f + 1, i requires 0 <= i < f + 1 => Route(i));
    forall i | 0 <= i < |ps|
      ensures IsPath(RealGraph(Fan(f)), ps[i], SOURCE, FAR) && Inner(ps[i], SOURCE, FAR) == {Middle(i)}
    {
      RouteIsPath(f, i);
    }
    forall i, j | 0 <= i < j < |ps|
      ensures ps[i] != ps[j] && Inner(ps[i], SOURCE, FAR) !! Inner(ps[j], SOURCE, FAR)
    {
      assert ps[i][1] == Middle(i) && ps[j][1] == Middle(j);
    }
    assert AreDisjoint(RealGraph(Fan(f)), SOURCE, FAR, ps);
  }

  /** With honest processes only and f+1 disjoint paths from the source, everything is delivered
      and yet one process has not got the broadcast. */
  lemma HonestProcessStarves(f: nat) returns (c: Config, run: seq<Sys>, v: Node)
    requires f >= 1
    ensures Legal(c) && c.f == f && c.silent == {} && !c.selective && !c.standalone && v in c.nodes && v != c.source
    ensures DisjointPaths(RealGraph(c), c.source, v, f + 1)
    ensures Run(c, run) && run[|run| - 1].bag == multiset{} && !StateOf(run[|run| - 1], v).delivered
  {
    hide Run, RealGraph, Sorted, Started, DisjointPaths;
    c, v := Fan(f), FAR;
    FanIsLegal(f);
    ManyRoutes(f);
    FarIsNotFirst(f);
    SureDeliveryExactly(c, v);
    run :| !DeliversAtRest(c, run, v);
  }

  lemma FarIsNotFirst(f: nat)
    ensures !FirstHand(Fan(f), FAR) && FAR in Fan(f).nodes
  {
    hide Sorted;
    MiddlesAre(f + 1);
  }
}
