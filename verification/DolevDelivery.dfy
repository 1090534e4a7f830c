/** What a naive Dolev flood without lying processes delivers, and on what evidence. */
module DolevDelivery {
  import opened Base
  import opened Ordering
  import opened Topology
  import opened DolevNaive
  import opened DolevFlood
  import Flood = DolevExactness
  import Search = DisjointSearch
  import Evidence = DolevEvidence

  predicate Passes(c: Config, s: Sys, v: Node) {
    c.origin.Some? && Accepts(PathsOf(s, v), c.origin.value, v, c.f)
  }

  predicate CheckPending(c: Config, s: Sys, v: Node) {
    c.origin.Some? && Check(v, c.origin.value) in s.bag
  }

  /** Whoever passes the test has delivered or is about to check, and nobody else delivers. */
  predicate DueAt(c: Config, s: Sys, v: Node) {
    && (StateOf(s, v).delivered ==> Passes(c, s, v))
    && (Passes(c, s, v) ==> StateOf(s, v).delivered || CheckPending(c, s, v))
    && (StateOf(s, v).delivered <==> v in s.attributed)
    && (v in s.attributed ==> c.origin == Some(s.attributed[v]))
  }

  ghost predicate Due(c: Config, s: Sys) {
    && (forall x: Packet :: x in s.bag && x.Check? ==> c.origin == Some(x.source))
    && (forall v :: DueAt(c, s, v))
  }

  lemma CheckFacts(c: Config, s: Sys, pk: Packet, v: Node)
    requires pk in s.bag && pk.Check?
    ensures var s', st := Deliver(c, s, pk), StateOf(s, v);
            var up := v == pk.dst && !st.delivered && Accepts(st.paths, pk.source, v, c.f);
            && PathsOf(s', v) == PathsOf(s, v) && StateOf(s', v).delivered == (st.delivered || up)
            && (v in s'.attributed <==> v in s.attributed || up)
            && (v in s'.attributed ==> s'.attributed[v] == if up then pk.source else s.attributed[v])
            && s'.bag == s.bag - multiset{pk}
  {
    hide Accepts;
  }

  lemma CheckKeepsDue(c: Config, s: Sys, pk: Packet)
    requires Due(c, s) && pk in s.bag && pk.Check?
    ensures Due(c, Deliver(c, s, pk))
  {
    hide Deliver, Accepts, PathsOf;
    var s' := Deliver(c, s, pk);
    CheckFacts(c, s, pk, pk.dst);
    forall v
      ensures DueAt(c, s', v)
    {
      CheckFacts(c, s, pk, v);
      assert DueAt(c, s, v);
      PathsAre(s, v);
    }
  }

  lemma PathsAre(s: Sys, v: Node)
    ensures PathsOf(s, v) == StateOf(s, v).paths
  {
  }

  lemma FloodFacts(c: Config, s: Sys, pk: Packet, v: Node)
    requires pk in s.bag && pk.Flood?
    ensures var s' := Deliver(c, s, pk);
            && StateOf(s', v).delivered == StateOf(s, v).delivered && s'.attributed == s.attributed
            && (PathsOf(s', v) == PathsOf(s, v) || (v == pk.dst && Heard(c, pk) && PathsOf(s, v) <= PathsOf(s', v)))
  {
    hide Accepts, Copies;
  }

  lemma FloodBag(c: Config, s: Sys, pk: Packet)
    requires pk in s.bag && pk.Flood?
    ensures var s' := Deliver(c, s, pk);
            && (forall x: Packet :: x.Check? && x in s.bag ==> x in s'.bag)
            && (forall x: Packet :: x.Check? && x in s'.bag ==>
                  x in s.bag || (Heard(c, pk) && x == Check(pk.dst, pk.source)))
            && (Heard(c, pk) ==> Check(pk.dst, pk.source) in s'.bag)
  {
    hide Deliver, Heard;
    DeliverBag(c, s, pk);
    if Heard(c, pk) {
      assert forall x :: x in Forwards(c, pk) ==> x.Flood?;
    }
  }

  lemma AcceptsGrows(paths: seq<Path>, longer: seq<Path>, source: Node, v: Node, f: nat)
    requires paths <= longer && Accepts(paths, source, v, f)
    ensures Accepts(longer, source, v, f)
  {
    PicksGrow(longer, |paths|, source, v);
    assert longer[..|paths|] == paths;
  }

  lemma FloodKeepsDue(c: Config, s: Sys, pk: Packet)
    requires Due(c, s) && Flood.Sound(c, s) && pk in s.bag && pk.Flood?
    ensures Due(c, Deliver(c, s, pk))
  {
    hide Deliver, Accepts, PathsOf, Heard, Flood.SimpleWalk, Flood.Trail;
    var s' := Deliver(c, s, pk);
    FloodBag(c, s, pk);
    assert c.origin == Some(pk.source) by { assert Flood.Outbound(c, pk); }
    forall v
      ensures DueAt(c, s', v)
    {
      FloodFacts(c, s, pk, v);
      assert DueAt(c, s, v);
      if Passes(c, s, v) {
        if PathsOf(s, v) <= PathsOf(s', v) {
          AcceptsGrows(PathsOf(s, v), PathsOf(s', v), pk.source, v, c.f);
        }
      }
    }
  }

  lemma DueAtStart(c: Config)
    requires Legal(c)
    ensures Due(c, Started(c))
  {
    var s := Started(c);
    forall v
      ensures DueAt(c, s, v)
    {
      assert PathsOf(s, v) == [];
    }
  }

  lemma {:induction false} RunKeepsDue(c: Config, run: seq<Sys>)
    requires Legal(c) && c.liars == {} && Run(c, run)
    ensures Due(c, run[|run| - 1])
  {
    hide Due, Deliver, Inject, Started, Flood.Inv, Flood.Sound;
    var n := |run| - 1;
    if n == 0 {
      DueAtStart(c);
    } else {
      assert Run(c, run[..n]);
      RunKeepsDue(c, run[..n]);
      Flood.RunKeepsInv(c, run[..n]);
      Flood.InvIsSound(c, run[n - 1]);
      assert Step(c, run[n - 1], run[n]);
      var pk: Packet :| StepOf(c, run[n - 1], pk, run[n]);
      if pk.Flood? {
        FloodKeepsDue(c, run[n - 1], pk);
      } else {
        CheckKeepsDue(c, run[n - 1], pk);
      }
    }
  }

  /** At rest a process has delivered exactly when the greedy search accepts the paths it has
      recorded, and has attributed the delivery to the originator. */
  lemma DeliveredExactly(c: Config, run: seq<Sys>, v: Node)
    requires Legal(c) && c.liars == {} && Run(c, run) && Quiescent(run[|run| - 1])
    ensures StateOf(run[|run| - 1], v).delivered <==> Passes(c, run[|run| - 1], v)
    ensures v in run[|run| - 1].attributed <==> Passes(c, run[|run| - 1], v)
    ensures v in run[|run| - 1].attributed ==> c.origin == Some(run[|run| - 1].attributed[v])
  {
    hide Step, Passes, StateOf;
    RunKeepsDue(c, run);
    assert DueAt(c, run[|run| - 1], v);
  }

  /** The links between correct processes. */
  function CorrectGraph(c: Config): Graph {
    set u, w | u in c.correct && w in c.correct && Topology.Link(c.nbrs, u, w) :: Edge(u, w)
  }

  lemma TrailsAreWellShaped(c: Config, p: Path, v: Node)
    requires Flood.Trail(c, p, v)
    ensures Search.WellShaped(p, c.origin.value, v)
  {
    assert p[0] in p;
  }

  lemma TrailsAreReal(c: Config, paths: seq<Path>, v: Node, p: Path)
    requires Legal(c) && c.origin.Some? && v in c.correct
    requires forall q: Path :: q in paths ==> Flood.Trail(c, q, v)
    requires IsPath(Search.UnionGraph(paths, c.origin.value, v), p, c.origin.value, v)
    ensures IsPath(CorrectGraph(c), p, c.origin.value, v)
  {
    hide IsPath, Search.UnionGraph, Topology.Trail;
    var e := Evidence.Config(c.correct, c.nbrs, map[], c.f, c.origin.value, false, {}, false);
    assert Evidence.Via(e) == c.correct;
    Evidence.UnionIsReal(e, paths, v, p);
    assert Evidence.RealGraph(e) == CorrectGraph(c);
  }

  /** In every state of every run a process that has delivered has f+1 internally disjoint paths
      of correct processes from the originator. */
  lemma DeliveryHasDisjointPaths(c: Config, run: seq<Sys>, v: Node)
    requires Legal(c) && c.liars == {} && Run(c, run) && v in c.correct
    requires StateOf(run[|run| - 1], v).delivered
    ensures c.origin.Some? && DisjointPaths(CorrectGraph(c), c.origin.value, v, c.f + 1)
  {
    hide Step, Search.UnionGraph, IsPath, Accepts, CorrectGraph, Flood.Trail, Search.WellShaped;
    var s := run[|run| - 1];
    RunKeepsDue(c, run);
    assert DueAt(c, s, v);
    Flood.RunKeepsInv(c, run);
    var o, paths := c.origin.value, PathsOf(s, v);
    forall p: Path | p in paths
      ensures Flood.Trail(c, p, v) && Search.WellShaped(p, o, v)
    {
      TrailsAreWellShaped(c, p, v);
    }
    Search.GreedyRefinesConnectivity(paths, o, v, c.f);
    forall p: Path | IsPath(Search.UnionGraph(paths, o, v), p, o, v)
      ensures IsPath(CorrectGraph(c), p, o, v)
    {
      TrailsAreReal(c, paths, v, p);
    }
    DisjointPathsMonotone(Search.UnionGraph(paths, o, v), CorrectGraph(c), o, v, c.f + 1);
  }
}
