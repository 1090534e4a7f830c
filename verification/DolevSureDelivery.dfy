/** Which processes a naive Dolev flood without lying processes is sure to reach: those that every
    way of collecting disjoint paths first come, first served supplies with enough. */
module DolevSureDelivery {
  import opened Base
  import opened Ordering
  import opened Topology
  import opened DolevNaive
  import opened DolevFlood
  import Exact = DolevExactness
  import Delivery = DolevDelivery

  /** Paths from the originator to |v| over correct processes. */
  predicate Trail(c: Config, p: Path, v: Node) { Exact.Trail(c, p, v) }

  predicate Meet(c: Config, p: Path, q: Path, v: Node)
    requires c.origin.Some?
  {
    Internal(p, c.origin.value, v) * Internal(q, c.origin.value, v) != {}
  }

  /** Different paths to |v| with no process in common in between. */
  predicate Family(c: Config, fam: seq<Path>, v: Node)
    requires c.origin.Some?
  {
    && (forall i :: 0 <= i < |fam| ==> Trail(c, fam[i], v))
    && (forall i, j :: 0 <= i < j < |fam| ==> fam[i] != fam[j] && !Meet(c, fam[i], fam[j], v))
  }

  /** No further path fits in. */
  ghost predicate Maximal(c: Config, fam: seq<Path>, v: Node)
    requires c.origin.Some?
  {
    && Family(c, fam, v)
    && forall t: Path :: Trail(c, t, v) && t !in fam ==> exists i :: 0 <= i < |fam| && Meet(c, fam[i], t, v)
  }

  // ----- the picks at rest are a maximal family

  function Picked(paths: seq<Path>, source: Node, v: Node): seq<Path> {
    var picks := Picks(paths, source, v);
    seq(|picks|, k requires 0 <= k < |picks| => paths[picks[k]])
  }

  lemma {:induction false} PicksRise(paths: seq<Path>, source: Node, v: Node, i: nat, j: nat)
    requires i < j < |Picks(paths, source, v)|
    ensures Picks(paths, source, v)[i] < Picks(paths, source, v)[j]
  {
    PicksDisjoint(paths, source, v, i, j);
  }

  /** A path that was not picked meets one that was. */
  lemma {:induction false} UnpickedMeets(paths: seq<Path>, source: Node, v: Node, n: nat)
    requires n < |paths| && n !in Picks(paths, source, v)
    ensures Clashes(paths, Picks(paths, source, v), paths[n], source, v)
    decreases |paths|
  {
    hide Internal;
    var last := |paths| - 1;
    var fewer := paths[..last];
    var picks, before := Picks(paths, source, v), Picks(fewer, source, v);
    assert before <= picks by { PicksGrow(paths, last, source, v); }
    assert n < last ==> n !in before;
    if n < last {
      UnpickedMeets(fewer, source, v, n);
    }
    ClashesLater(fewer, paths, before, picks, paths[n], source, v);
  }

  lemma ClashesLater(fewer: seq<Path>, paths: seq<Path>, before: seq<nat>,
                     picks: seq<nat>, path: Path, source: Node, v: Node)
    requires forall k :: 0 <= k < |before| ==> before[k] < |fewer|
    requires forall k :: 0 <= k < |picks| ==> picks[k] < |paths|
    requires fewer <= paths && before <= picks && Clashes(fewer, before, path, source, v)
    ensures Clashes(paths, picks, path, source, v)
  {
    hide Internal;
    var k :| 0 <= k < |before| && Internal(fewer[before[k]], source, v) * Internal(path, source, v) != {};
    assert picks[k] == before[k];
  }

  lemma PickedIsFamily(c: Config, paths: seq<Path>, v: Node)
    requires c.origin.Some? && Distinct(paths) && forall t :: t in paths ==> Trail(c, t, v)
    ensures Family(c, Picked(paths, c.origin.value, v), v)
  {
    hide Internal, Picks, Trail;
    var o := c.origin.value;
    var picks, fam := Picks(paths, o, v), Picked(paths, o, v);
    forall i, j | 0 <= i < j < |fam|
      ensures fam[i] != fam[j] && !Meet(c, fam[i], fam[j], v)
    {
      PicksDisjoint(paths, o, v, i, j);
    }
  }

  /** What the greedy search keeps of all paths is a maximal family. */
  lemma PickedIsMaximal(c: Config, paths: seq<Path>, v: Node)
    requires c.origin.Some? && Distinct(paths) && forall t: Path :: t in paths <==> Trail(c, t, v)
    ensures Maximal(c, Picked(paths, c.origin.value, v), v)
  {
    hide Internal, Picks, Trail;
    var o := c.origin.value;
    var picks, fam := Picks(paths, o, v), Picked(paths, o, v);
    PickedIsFamily(c, paths, v);
    forall t: Path | Trail(c, t, v) && t !in fam
      ensures exists i :: 0 <= i < |fam| && Meet(c, fam[i], t, v)
    {
      var n :| 0 <= n < |paths| && paths[n] == t;
      assert forall k :: 0 <= k < |picks| ==> fam[k] == paths[picks[k]] && fam[k] != t;
      UnpickedMeets(paths, o, v, n);
      var k :| 0 <= k < |picks| && Internal(paths[picks[k]], o, v) * Internal(paths[n], o, v) != {};
      assert Meet(c, fam[k], t, v);
    }
  }

  /** Every run at rest delivers where every maximal family is large enough. */
  lemma EnoughForAll(c: Config, run: seq<Sys>, v: Node)
    requires Legal(c) && c.liars == {} && c.origin.Some? && v in c.correct && Run(c, run) && Quiescent(run[|run| - 1])
    requires forall fam :: Maximal(c, fam, v) ==> |fam| >= c.f + 1
    ensures StateOf(run[|run| - 1], v).delivered
  {
    hide Step, Quiescent, StateOf, Picks, Exact.Trail, Maximal;
    var s := run[|run| - 1];
    var paths := PathsOf(s, v);
    forall t: Path
      ensures t in paths <==> Trail(c, t, v)
    {
      Exact.FloodExactness(c, run, v, t);
    }
    Exact.FloodExactness(c, run, v, []);
    PickedIsMaximal(c, paths, v);
    Delivery.DeliveredExactly(c, run, v);
  }

  // ----- a maximal family that comes first is all that is picked

  function Upto(n: nat): seq<nat> { seq(n, i requires 0 <= i < n => i) }

  lemma {:induction false} FamilyFirst(c: Config, paths: seq<Path>, fam: seq<Path>, v: Node)
    requires c.origin.Some? && Maximal(c, fam, v) && Distinct(paths) && (forall t :: t in paths ==> Trail(c, t, v))
    requires fam <= paths || paths <= fam
    ensures Picks(paths, c.origin.value, v) == Upto(if |paths| <= |fam| then |paths| else |fam|)
    decreases |paths|
  {
    hide Internal, Trail;
    var o := c.origin.value;
    if paths != [] {
      var n := |paths| - 1;
      var before := Picks(paths[..n], o, v);
      FamilyFirst(c, paths[..n], fam, v);
      if n < |fam| {
        assert forall k :: 0 <= k < n ==> paths[..n][k] == fam[k];
        assert paths[n] == fam[n];
        NoClashInside(c, paths[..n], fam, before, v, n);
      } else {
        ClashBeyond(c, paths, fam, before, v, n);
      }
    }
  }

  lemma NoClashInside(c: Config, paths: seq<Path>, fam: seq<Path>, picks: seq<nat>, v: Node, n: nat)
    requires c.origin.Some? && Family(c, fam, v) && n < |fam| && |paths| == n && paths <= fam && picks == Upto(n)
    ensures !Clashes(paths, picks, fam[n], c.origin.value, v)
  {
    hide Internal, Trail;
    forall k | 0 <= k < n
      ensures Internal(paths[picks[k]], c.origin.value, v) * Internal(fam[n], c.origin.value, v) == {}
    {
      assert !Meet(c, fam[k], fam[n], v);
    }
  }

  lemma ClashBeyond(c: Config, paths: seq<Path>, fam: seq<Path>, picks: seq<nat>, v: Node, n: nat)
    requires c.origin.Some? && Maximal(c, fam, v) && Distinct(paths) && |paths| == n + 1 && n >= |fam| && fam <= paths
    requires Trail(c, paths[n], v) && picks == Upto(|fam|)
    ensures Clashes(paths[..n], picks, paths[n], c.origin.value, v)
  {
    hide Internal, Trail;
    assert forall k :: 0 <= k < |fam| ==> fam[k] == paths[k] && paths[k] != paths[n];
    var i :| 0 <= i < |fam| && Meet(c, fam[i], paths[n], v);
    assert paths[..n][picks[i]] == fam[i];
  }

  // ----- a run in which a chosen family comes first

  lemma ExtendRun(c: Config, run: seq<Sys>, pk: Packet)
    requires Run(c, run) && pk in run[|run| - 1].bag
    ensures Run(c, run + [Deliver(c, run[|run| - 1], pk)])
  {
    hide Deliver, Started;
    var s' := Deliver(c, run[|run| - 1], pk);
    var longer := run + [s'];
    assert StepOf(c, run[|run| - 1], pk, s');
    forall i | 0 <= i < |longer| - 1
      ensures Step(c, longer[i], longer[i + 1])
    {
      if i < |run| - 1 {
        assert Step(c, run[i], run[i + 1]);
      }
    }
  }

  lemma RunIsNonempty(c: Config, run: seq<Sys>)
    requires Run(c, run)
    ensures run != []
  {
  }

  lemma Consumes(c: Config, run: seq<Sys>, pk: Packet)
    requires Legal(c) && c.liars == {} && Run(c, run) && pk in run[|run| - 1].bag
    ensures Exact.Measure(c, Deliver(c, run[|run| - 1], pk)) < Exact.Measure(c, run[|run| - 1])
  {
    hide Run, Deliver, Exact.Measure, Exact.Inv, Exact.Sound;
    assert run != [] by { RunIsNonempty(c, run); }
    Exact.RunKeepsInv(c, run);
    Exact.InvIsSound(c, run[|run| - 1]);
    Exact.DeliverConsumes(c, run[|run| - 1], pk);
  }

  /** What is left is for |v|, which has recorded nothing. */
  ghost predicate HeldBack(c: Config, s: Sys, v: Node) {
    PathsOf(s, v) == [] && forall pk :: pk in s.bag ==> pk.dst == v
  }

  lemma {:induction false} HoldBack(c: Config, run: seq<Sys>, v: Node) returns (longer: seq<Sys>)
    requires Legal(c) && c.liars == {} && Run(c, run) && PathsOf(run[|run| - 1], v) == []
    ensures Run(c, longer) && HeldBack(c, longer[|longer| - 1], v)
    decreases Exact.Measure(c, run[|run| - 1])
  {
    hide Run, Deliver, Exact.Measure, PathsOf, Legal;
    assert run != [] by { RunIsNonempty(c, run); }
    var s := run[|run| - 1];
    longer := run;
    if pk :| pk in s.bag && pk.dst != v {
      Consumes(c, run, pk);
      DeliverPaths(c, s, pk, v);
      ExtendRun(c, run, pk);
      longer := HoldBack(c, run + [Deliver(c, s, pk)], v);
    }
  }

  /** Elsewhere every path that avoids |v| has been recorded. */
  lemma {:induction false} RecordedElsewhere(c: Config, s: Sys, p: Path, w: Node, v: Node)
    requires Legal(c) && Exact.Inv(c, s) && HeldBack(c, s, v) && Exact.Trail(c, p, w)
    requires w in c.correct && w != v && v !in p
    ensures p in PathsOf(s, w)
    decreases |p|
  {
    hide PathsOf;
    var q, u, o := p[..|p| - 1], p[|p| - 1], c.origin.value;
    assert p == q + [u];
    if q == [] {
      assert Exact.Passed(c, s, o, o, [], w);
    } else {
      Exact.ExtendTrail(c, q, u);
      RecordedElsewhere(c, s, q, u, v);
      assert Exact.Passed(c, s, o, u, q, w);
    }
  }

  /** The message that brings |v| the path |p|. */
  function Bringing(c: Config, p: Path, v: Node): Packet
    requires c.origin.Some? && p != []
  {
    Flood(p[|p| - 1], v, c.origin.value, p[..|p| - 1])
  }

  lemma AllOnTheirWay(c: Config, s: Sys, p: Path, v: Node)
    requires Legal(c) && Exact.Inv(c, s) && HeldBack(c, s, v) && v in c.correct && Exact.Trail(c, p, v)
    ensures Bringing(c, p, v) in s.bag
  {
    hide PathsOf;
    var q, u, o := p[..|p| - 1], p[|p| - 1], c.origin.value;
    assert p == q + [u];
    if q == [] {
      assert Exact.Passed(c, s, o, o, [], v);
    } else {
      Exact.ExtendTrail(c, q, u);
      RecordedElsewhere(c, s, q, u, v);
      assert Exact.Passed(c, s, o, u, q, v);
    }
  }

  lemma TrailEnds(c: Config, p: Path, v: Node)
    requires Exact.Trail(c, p, v)
    ensures c.origin.Some? && p != [] && p[|p| - 1] in Nbrs(c, v)
  {
  }

  /** |v| hears the family, one path after the other. */
  lemma {:induction false} HandOver(c: Config, run: seq<Sys>, fam: seq<Path>, v: Node, k: nat)
    returns (longer: seq<Sys>)
    requires Legal(c) && c.liars == {} && c.origin.Some? && Run(c, run) && Family(c, fam, v) && k <= |fam|
    requires PathsOf(run[|run| - 1], v) == fam[..k]
    requires forall i :: k <= i < |fam| ==> fam[i] != [] && Bringing(c, fam[i], v) in run[|run| - 1].bag
    ensures Run(c, longer) && PathsOf(longer[|longer| - 1], v) == fam
    decreases |fam| - k
  {
    hide Run, Deliver, PathsOf, Legal, Internal, Exact.Trail;
    assert run != [] by { RunIsNonempty(c, run); }
    if k == |fam| {
      longer := run;
      assert fam[..k] == fam;
    } else {
      var s, pk := run[|run| - 1], Bringing(c, fam[k], v);
      TrailEnds(c, fam[k], v);
      DeliverPaths(c, s, pk, v);
      DeliverFacts(c, s, pk, Deliver(c, s, pk));
      assert pk.path + [pk.src] == fam[k] && fam[..k + 1] == fam[..k] + [fam[k]];
      assert forall i :: 0 <= i < k ==> fam[i] != fam[k];
      OthersStay(c, fam, v, k);
      ExtendRun(c, run, pk);
      longer := HandOver(c, run + [Deliver(c, s, pk)], fam, v, k + 1);
    }
  }

  lemma OthersStay(c: Config, fam: seq<Path>, v: Node, k: nat)
    requires c.origin.Some? && k < |fam| && (forall i :: k <= i < |fam| ==> fam[i] != [])
    requires forall i, j :: 0 <= i < j < |fam| ==> fam[i] != fam[j]
    ensures forall i :: k < i < |fam| ==> Bringing(c, fam[i], v) != Bringing(c, fam[k], v)
  {
    forall i | k < i < |fam|
      ensures Bringing(c, fam[i], v) != Bringing(c, fam[k], v)
    {
      assert fam[i] == fam[i][..|fam[i]| - 1] + [fam[i][|fam[i]| - 1]];
      assert fam[k] == fam[k][..|fam[k]| - 1] + [fam[k][|fam[k]| - 1]];
    }
  }

  /** The rest of the run adds to what |v| has recorded. */
  lemma {:induction false} ComeToRest(c: Config, run: seq<Sys>, fam: seq<Path>, v: Node) returns (longer: seq<Sys>)
    requires Legal(c) && c.liars == {} && Run(c, run) && fam <= PathsOf(run[|run| - 1], v)
    ensures Run(c, longer) && Quiescent(longer[|longer| - 1]) && fam <= PathsOf(longer[|longer| - 1], v)
    decreases Exact.Measure(c, run[|run| - 1])
  {
    hide Run, Deliver, Exact.Measure, PathsOf, Legal;
    assert run != [] by { RunIsNonempty(c, run); }
    var s := run[|run| - 1];
    longer := run;
    if pk :| pk in s.bag {
      Consumes(c, run, pk);
      DeliverPaths(c, s, pk, v);
      ExtendRun(c, run, pk);
      longer := ComeToRest(c, run + [Deliver(c, s, pk)], fam, v);
    }
  }

  lemma StartRun(c: Config, v: Node)
    ensures Run(c, [Started(c)]) && PathsOf(Started(c), v) == []
  {
  }

  /** A maximal family that is too small starves |v|, if it comes first. */
  lemma FamilyStarves(c: Config, fam: seq<Path>, v: Node) returns (run: seq<Sys>)
    requires Legal(c) && c.liars == {} && c.origin.Some? && v in c.correct && Maximal(c, fam, v) && |fam| <= c.f
    ensures Run(c, run) && Quiescent(run[|run| - 1]) && !StateOf(run[|run| - 1], v).delivered
  {
    hide Run, Quiescent, StateOf, Picks, Exact.Trail, Meet, Started, Exact.Inv, PathsOf, Legal;
    StartRun(c, v);
    var held := HoldBack(c, [Started(c)], v);
    assert held != [] by { RunIsNonempty(c, held); }
    Exact.RunKeepsInv(c, held);
    forall i | 0 <= i < |fam|
      ensures fam[i] != [] && Bringing(c, fam[i], v) in held[|held| - 1].bag
    {
      TrailEnds(c, fam[i], v);
      AllOnTheirWay(c, held[|held| - 1], fam[i], v);
    }
    assert fam[..0] == [];
    var handed := HandOver(c, held, fam, v, 0);
    assert handed != [] by { RunIsNonempty(c, handed); }
    run := ComeToRest(c, handed, fam, v);
    assert run != [] by { RunIsNonempty(c, run); }
    Exact.RunKeepsInv(c, run);
    RecordedAreTrails(c, run[|run| - 1], v);
    FamilyFirst(c, PathsOf(run[|run| - 1], v), fam, v);
    Delivery.DeliveredExactly(c, run, v);
  }

  lemma RecordedAreTrails(c: Config, s: Sys, v: Node)
    requires Exact.Inv(c, s) && v in c.correct
    ensures Distinct(PathsOf(s, v)) && forall t :: t in PathsOf(s, v) ==> Trail(c, t, v)
  {
    hide PathsOf, Exact.Trail;
  }

  ghost predicate DeliversAtRest(c: Config, run: seq<Sys>, v: Node) {
    Run(c, run) && Quiescent(run[|run| - 1]) ==> StateOf(run[|run| - 1], v).delivered
  }

  /** For any topology, any silent processes and any fault budget: a process is sure to deliver
      exactly when no maximal family of internally disjoint paths to it has |f| members or fewer.
      That there are f+1 disjoint paths is not enough. */
  lemma SureDeliveryExactly(c: Config, v: Node)
    requires Legal(c) && c.liars == {} && c.origin.Some? && v in c.correct
    ensures (forall run: seq<Sys> :: DeliversAtRest(c, run, v))
      <==> (forall fam: seq<Path> :: Maximal(c, fam, v) ==> |fam| >= c.f + 1)
  {
    hide Run, Quiescent, StateOf, Maximal, Legal;
    if fam: seq<Path> :| Maximal(c, fam, v) && |fam| <= c.f {
      var run := FamilyStarves(c, fam, v);
      assert !DeliversAtRest(c, run, v);
    } else {
      forall run: seq<Sys>
        ensures DeliversAtRest(c, run, v)
      {
        if Run(c, run) {
          RunIsNonempty(c, run);
          if Quiescent(run[|run| - 1]) {
            EnoughForAll(c, run, v);
          }
        }
      }
    }
  }
}
