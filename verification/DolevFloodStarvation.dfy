/** For every fault budget above zero, a topology with enough disjoint paths in which a naive flood
    starves a process although everybody is correct: a roundabout path through all the source's
    neighbours, heard first, meets every other path. */
module DolevFloodStarvation {
  import opened Base
  import opened Ordering
  import opened Topology
  import opened DolevNaive
  import opened DolevFlood
  import opened DolevSureDelivery
  import Exact = DolevExactness
  import Delivery = DolevDelivery
  import Fan = DolevStarvation

  const SOURCE := Fan.SOURCE
  const FAR := Fan.FAR

  /** The fan of f+1 routes, its middle processes linked with one another. */
  function Wheel(f: nat): Config {
    var middles := Fan.Middles(f + 1);
    Config(Fan.Everybody(f),
           map p | p in Fan.Everybody(f) :: if p == SOURCE || p == FAR then middles else {SOURCE, FAR} + middles,
           Fan.Everybody(f), {}, f, Some(SOURCE))
  }

  lemma WheelNbrs(f: nat, p: Node)
    requires p in Fan.Everybody(f)
    ensures Nbrs(Wheel(f), p) == (if p == SOURCE || p == FAR then {} else {SOURCE, FAR}) + Fan.Middles(f + 1)
    ensures Legal(Wheel(f)) && Wheel(f).origin == Some(SOURCE) && Wheel(f).correct == Fan.Everybody(f)
  {
    hide Fan.Middles;
  }

  lemma WheelLinks(f: nat, i: nat, j: nat)
    requires i <= f && j <= f
    ensures var c := Wheel(f);
            && Link(c.nbrs, SOURCE, Fan.Middle(i)) && Link(c.nbrs, Fan.Middle(i), FAR)
            && (i != j ==> Link(c.nbrs, Fan.Middle(i), Fan.Middle(j)))
    ensures Fan.Middle(i) in Fan.Everybody(f) && Fan.Middle(i) !in {SOURCE, FAR}
  {
    hide Wheel, Fan.Middles, NbrsOf;
    Fan.MiddlesAre(f + 1);
    WheelNbrs(f, SOURCE);
    WheelNbrs(f, FAR);
    WheelNbrs(f, Fan.Middle(i));
    WheelNbrs(f, Fan.Middle(j));
  }

  // ----- the roundabout path

  function Roundabout(k: nat): Path {
    if k == 0 then [SOURCE] else Roundabout(k - 1) + [Fan.Middle(k - 1)]
  }

  lemma {:induction false} RoundaboutAt(k: nat)
    ensures |Roundabout(k)| == k + 1 && Roundabout(k)[0] == SOURCE
    ensures forall i :: 0 < i <= k ==> Roundabout(k)[i] == Fan.Middle(i - 1)
  {
    if k > 0 {
      RoundaboutAt(k - 1);
    }
  }

  predicate GoesOn(c: Config, p: Path, i: nat)
    requires i + 1 < |p|
  {
    Link(c.nbrs, p[i], p[i + 1]) && p[i + 1] in c.correct && p[i + 1] !in {SOURCE, FAR}
  }

  lemma WalksOn(c: Config, p: Path)
    requires p != [] && forall i :: 0 <= i < |p| - 1 ==> GoesOn(c, p, i)
    ensures forall i :: 0 <= i < |p| - 1 ==> Link(c.nbrs, p[i], p[i + 1])
  {
    hide Link;
    forall i | 0 <= i < |p| - 1
      ensures Link(c.nbrs, p[i], p[i + 1])
    {
      assert GoesOn(c, p, i);
    }
  }

  lemma RoundaboutIsTrail(f: nat)
    ensures Exact.Trail(Wheel(f), Roundabout(f + 1), FAR)
  {
    hide Wheel, Link;
    var c, p := Wheel(f), Roundabout(f + 1);
    RoundaboutAt(f + 1);
    WheelNbrs(f, SOURCE);
    forall i | 0 <= i < |p| - 1
      ensures GoesOn(c, p, i)
    {
      WheelLinks(f, i, i);
      WheelLinks(f, if i == 0 then 0 else i - 1, i);
      assert p[i + 1] == Fan.Middle(i);
    }
    forall i | 0 < i < |p|
      ensures p[i] in c.correct && p[i] !in {SOURCE, FAR}
    {
      assert GoesOn(c, p, i - 1);
    }
    assert p[|p| - 1] == Fan.Middle(f);
    WheelLinks(f, f, f);
    assert forall i, j :: 0 <= i < j < |p| ==> p[i] != p[j];
    assert FAR !in p && forall i :: 0 <= i < |p| ==> p[i] in c.correct;
    WalksOn(c, p);
  }

  /** Every path to the far process comes in through the middle, which the roundabout path covers. */
  lemma RoundaboutMeetsAll(f: nat, t: Path)
    requires Exact.Trail(Wheel(f), t, FAR)
    ensures Wheel(f).origin.Some? && Meet(Wheel(f), Roundabout(f + 1), t, FAR)
  {
    hide Wheel;
    var x := t[|t| - 1];
    WheelNbrs(f, FAR);
    assert x in Fan.Middles(f + 1);
    RoundaboutCovers(f, x);
    assert x in Internal(t, SOURCE, FAR);
  }

  lemma RoundaboutCovers(f: nat, x: Node)
    requires x in Fan.Middles(f + 1)
    ensures x in Internal(Roundabout(f + 1), SOURCE, FAR) && x !in {SOURCE, FAR}
  {
    RoundaboutAt(f + 1);
    Fan.MiddlesAre(f + 1);
    var i := x.rank - 2;
    assert x == Fan.Middle(i) == Roundabout(f + 1)[i + 1];
  }

  /** A path that meets all others is a maximal family by itself. */
  lemma OneIsMaximal(c: Config, p: Path, fam: seq<Path>, v: Node)
    requires c.origin.Some? && fam == [p] && Exact.Trail(c, p, v)
    requires forall t: Path :: Exact.Trail(c, t, v) ==> Meet(c, p, t, v)
    ensures Maximal(c, fam, v)
  {
    hide Meet, Exact.Trail;
    assert fam[0] == p;
  }

  lemma RoundaboutIsMaximal(f: nat)
    ensures Wheel(f).origin.Some? && Maximal(Wheel(f), [Roundabout(f + 1)], FAR)
  {
    hide Wheel, Meet, Exact.Trail, Maximal;
    WheelNbrs(f, SOURCE);
    RoundaboutIsTrail(f);
    forall t: Path | Exact.Trail(Wheel(f), t, FAR)
      ensures Meet(Wheel(f), Roundabout(f + 1), t, FAR)
    {
      RoundaboutMeetsAll(f, t);
    }
    OneIsMaximal(Wheel(f), Roundabout(f + 1), [Roundabout(f + 1)], FAR);
  }

  // ----- the disjoint paths

  lemma RouteIsPath(f: nat, i: nat)
    requires i <= f
    ensures IsPath(Delivery.CorrectGraph(Wheel(f)), Fan.Route(i), SOURCE, FAR)
    ensures Inner(Fan.Route(i), SOURCE, FAR) == {Fan.Middle(i)}
  {
    hide Wheel, Link;
    WheelLinks(f, i, i);
    WheelNbrs(f, SOURCE);
    var g := Delivery.CorrectGraph(Wheel(f));
    assert Edge(SOURCE, Fan.Middle(i)) in g && Edge(Fan.Middle(i), FAR) in g;
    assert Elems(Fan.Route(i)) == {SOURCE, Fan.Middle(i), FAR};
  }

  lemma ManyRoutes(f: nat)
    ensures DisjointPaths(Delivery.CorrectGraph(Wheel(f)), SOURCE, FAR, f + 1)
  {
    hide Wheel, Delivery.CorrectGraph, IsPath, Inner;
    var g := Delivery.CorrectGraph(Wheel(f));
    var ps := seq(f + 1, i requires 0 <= i < f + 1 => Fan.Route(i));
    forall i | 0 <= i < |ps|
      ensures IsPath(g, ps[i], SOURCE, FAR) && Inner(ps[i], SOURCE, FAR) == {Fan.Middle(i)}
    {
      RouteIsPath(f, i);
    }
    forall i, j | 0 <= i < j < |ps|
      ensures ps[i] != ps[j] && Inner(ps[i], SOURCE, FAR) !! Inner(ps[j], SOURCE, FAR)
    {
      assert ps[i][1] == Fan.Middle(i) && ps[j][1] == Fan.Middle(j);
    }
    assert AreDisjoint(g, SOURCE, FAR, ps);
  }

  /** With correct processes only and f+1 disjoint paths from the source, everything is delivered and
      yet one process has not accepted the message. */
  lemma CorrectProcessStarves(f: nat) returns (c: Config, run: seq<Sys>, v: Node)
    requires f >= 1
    ensures Legal(c) && c.f == f && c.correct == c.nodes && v in c.correct
    ensures c.origin.Some? && DisjointPaths(Delivery.CorrectGraph(c), c.origin.value, v, f + 1)
    ensures Run(c, run) && Quiescent(run[|run| - 1]) && !StateOf(run[|run| - 1], v).delivered
  {
    hide Run, Quiescent, StateOf, Maximal, DisjointPaths, Delivery.CorrectGraph;
    c, v := Wheel(f), FAR;
    WheelNbrs(f, FAR);
    ManyRoutes(f);
    RoundaboutIsMaximal(f);
    run := FamilyStarves(c, [Roundabout(f + 1)], v);
  }
}
