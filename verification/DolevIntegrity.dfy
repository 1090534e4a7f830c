/** What lying processes cannot make a naive Dolev flood deliver, over any topology. */
module DolevIntegrity {
  import opened Base
  import opened Ordering
  import opened Topology
  import opened DolevNaive
  import opened DolevFlood
  import Delivery = DolevDelivery

  /** The processes a path to a correct process must have passed: the first correct one to send
      the message on got it from the originator, or from a faulty process. */
  function Culprits(c: Config): set<Node> {
    Faulty(c) + if c.origin.Some? then {c.origin.value} else {}
  }

  ghost predicate Hit(c: Config, p: Path, v: Node) {
    exists h :: h in Culprits(c) && h in p && h != v
  }

  ghost predicate Tainted(c: Config, s: Sys) {
    && (forall x: Packet :: x in s.bag && x.Flood? ==> Hit(c, x.path + [x.src], x.dst) && x.dst in c.correct)
    && (forall v, p: Path :: p in PathsOf(s, v) ==> Hit(c, p, v))
  }

  /** A delivery was accepted on the paths then recorded, and still would be. */
  ghost predicate Accounted(c: Config, s: Sys) {
    forall v :: v in s.attributed ==> Accepts(PathsOf(s, v), s.attributed[v], v, c.f)
  }

  ghost predicate Inv(c: Config, s: Sys) { Tainted(c, s) && Accounted(c, s) }

  lemma TaintedAfter(c: Config, s: Sys, pk: Packet, s': Sys)
    requires Tainted(c, s) && pk in s.bag && s' == Deliver(c, s, pk)
    ensures Tainted(c, s')
  {
    hide Deliver, PathsOf, Culprits;
    DeliverFacts(c, s, pk, s');
    if Heard(c, pk) {
      var longer := pk.path + [pk.src];
      forall x: Packet | Forwarded(c, pk, x)
        ensures Hit(c, x.path + [x.src], x.dst)
      {
        var h :| h in Culprits(c) && h in longer && h != pk.dst;
        assert h in longer + [pk.dst] && h in Elems(longer);
      }
    }
  }

  lemma AttributedAfter(c: Config, s: Sys, pk: Packet, v: Node)
    requires pk in s.bag
    ensures var s' := Deliver(c, s, pk);
            v in s'.attributed ==>
              || (v in s.attributed && s'.attributed[v] == s.attributed[v])
              || (v == pk.dst && Accepts(PathsOf(s', v), s'.attributed[v], v, c.f))
  {
    hide Accepts, Copies, FloodStep;
  }

  lemma AccountedAfter(c: Config, s: Sys, pk: Packet)
    requires Accounted(c, s) && pk in s.bag
    ensures Accounted(c, Deliver(c, s, pk))
  {
    hide Deliver, PathsOf, Picks, Heard;
    var s' := Deliver(c, s, pk);
    forall v | v in s'.attributed
      ensures Accepts(PathsOf(s', v), s'.attributed[v], v, c.f)
    {
      AttributedAfter(c, s, pk, v);
      DeliverPaths(c, s, pk, v);
      var was, now := PathsOf(s, v), PathsOf(s', v);
      assert was == now[..|was|];
      PicksGrow(now, |was|, s'.attributed[v], v);
    }
  }

  lemma InvAfterInject(c: Config, s: Sys, pk: Packet)
    requires Legal(c) && Inv(c, s) && MayInject(c, pk)
    ensures Inv(c, Inject(s, pk))
  {
    hide Accepts;
    var s' := Inject(s, pk);
    assert forall v :: PathsOf(s', v) == PathsOf(s, v);
    assert pk.src in Culprits(c) && pk.src in pk.path + [pk.src];
  }

  lemma InvStarted(c: Config)
    requires Legal(c)
    ensures Inv(c, Started(c))
  {
    hide Accepts;
    var s := Started(c);
    forall x: Packet | x in s.bag
      ensures x.Flood? ==> Hit(c, x.path + [x.src], x.dst) && x.dst in c.correct
    {
      assert c.origin.value in Culprits(c) && c.origin.value in [] + [c.origin.value];
    }
  }

  lemma {:induction false} RunKeepsInv(c: Config, run: seq<Sys>)
    requires Legal(c) && Run(c, run)
    ensures Inv(c, run[|run| - 1])
  {
    hide Tainted, Accounted, Deliver, Inject, Started, MayInject;
    var n := |run| - 1;
    if n == 0 {
      InvStarted(c);
    } else {
      assert Run(c, run[..n]);
      RunKeepsInv(c, run[..n]);
      assert Step(c, run[n - 1], run[n]);
      var pk: Packet :| StepOf(c, run[n - 1], pk, run[n]);
      if pk in run[n - 1].bag && run[n] == Deliver(c, run[n - 1], pk) {
        TaintedAfter(c, run[n - 1], pk, run[n]);
        AccountedAfter(c, run[n - 1], pk);
      } else {
        InvAfterInject(c, run[n - 1], pk);
      }
    }
  }

  ghost predicate AllHit(paths: seq<Path>, hitters: set<Node>, source: Node, me: Node) {
    forall i :: 0 <= i < |paths| ==> Internal(paths[i], source, me) * hitters != {}
  }

  /** Pairwise disjoint paths that each pass one of the hitters are no more than the hitters. */
  lemma FewPicks(paths: seq<Path>, hitters: set<Node>, source: Node, me: Node)
    requires AllHit(paths, hitters, source, me)
    ensures |Picks(paths, source, me)| <= |hitters|
  {
    var used := PickHitters(paths, hitters, source, me);
    SubsetSize(used, hitters);
  }

  /** One hitter for each pick, all different. */
  lemma {:induction false} PickHitters(paths: seq<Path>, hitters: set<Node>, source: Node, me: Node)
    returns (used: set<Node>)
    requires AllHit(paths, hitters, source, me)
    ensures used <= hitters && |used| == |Picks(paths, source, me)|
    ensures forall h :: h in used ==> HitsPick(paths, source, me, h)
    decreases |paths|
  {
    hide AllHit, Internal, HitsPick;
    if paths == [] {
      return {};
    }
    var n := |paths| - 1;
    PrefixHit(paths, hitters, source, me);
    used := PickHitters(paths[..n], hitters, source, me);
    forall h | h in used
      ensures HitsPick(paths, source, me, h)
    {
      StillHits(paths, source, me, h);
    }
    if |Picks(paths, source, me)| > |used| {
      var h: Node :| h in Internal(paths[n], source, me) * hitters;
      NewHitter(paths, source, me, h);
      used := used + {h};
    }
  }

  lemma PrefixHit(paths: seq<Path>, hitters: set<Node>, source: Node, me: Node)
    requires AllHit(paths, hitters, source, me) && paths != []
    ensures AllHit(paths[..|paths| - 1], hitters, source, me)
    ensures Internal(paths[|paths| - 1], source, me) * hitters != {}
  {
  }

  lemma StillHits(paths: seq<Path>, source: Node, me: Node, h: Node)
    requires paths != [] && HitsPick(paths[..|paths| - 1], source, me, h)
    ensures HitsPick(paths, source, me, h)
  {
    var n := |paths| - 1;
    var before := Picks(paths[..n], source, me);
    var k :| 0 <= k < |before| && h in Internal(paths[..n][before[k]], source, me);
    assert Picks(paths, source, me)[k] == before[k] && paths[before[k]] == paths[..n][before[k]];
  }

  /** The hitter of a fresh pick hits no earlier one. */
  lemma NewHitter(paths: seq<Path>, source: Node, me: Node, h: Node)
    requires paths != [] && h in Internal(paths[|paths| - 1], source, me)
    requires |Picks(paths, source, me)| > |Picks(paths[..|paths| - 1], source, me)|
    ensures HitsPick(paths, source, me, h) && !HitsPick(paths[..|paths| - 1], source, me, h)
  {
    var n := |paths| - 1;
    var before, now := Picks(paths[..n], source, me), Picks(paths, source, me);
    assert now == before + [n] && now[|before|] == n;
  }

  ghost predicate HitsPick(paths: seq<Path>, source: Node, me: Node, h: Node) {
    var picks := Picks(paths, source, me);
    exists k :: 0 <= k < |picks| && h in Internal(paths[picks[k]], source, me)
  }

  /** A delivery attributed to a process that is no culprit needs more than |f| culprits. */
  lemma AttributionNeedsCulprits(c: Config, run: seq<Sys>, v: Node)
    requires Legal(c) && Run(c, run) && v in run[|run| - 1].attributed
    requires run[|run| - 1].attributed[v] !in Culprits(c)
    ensures |Culprits(c)| >= c.f + 1
  {
    hide PathsOf, Picks, Culprits;
    var s := run[|run| - 1];
    RunKeepsInv(c, run);
    var source, paths := s.attributed[v], PathsOf(s, v);
    forall i | 0 <= i < |paths|
      ensures Internal(paths[i], source, v) * Culprits(c) != {}
    {
      assert paths[i] in paths && Hit(c, paths[i], v);
      var h :| h in Culprits(c) && h in paths[i] && h != v;
      assert h in Internal(paths[i], source, v) * Culprits(c);
    }
    FewPicks(paths, Culprits(c), source, v);
  }

  /** No fabrication: with at most |f| faulty processes nobody delivers, under the name of a
      correct source, a message id that no correct process broadcast. */
  lemma NoFabrication(c: Config, run: seq<Sys>, v: Node)
    requires Legal(c) && Run(c, run) && |Faulty(c)| <= c.f
    requires v in run[|run| - 1].attributed && run[|run| - 1].attributed[v] in c.correct
    ensures c.origin.Some?
  {
    if c.origin == None {
      assert Culprits(c) == Faulty(c);
      AttributionNeedsCulprits(c, run, v);
    }
  }

  /** With one faulty process fewer than budgeted the attribution is right as well. */
  lemma NoMisattribution(c: Config, run: seq<Sys>, v: Node)
    requires Legal(c) && Run(c, run) && |Faulty(c)| < c.f
    requires v in run[|run| - 1].attributed && run[|run| - 1].attributed[v] in c.correct
    ensures c.origin == Some(run[|run| - 1].attributed[v])
  {
    if c.origin != Some(run[|run| - 1].attributed[v]) {
      AttributionNeedsCulprits(c, run, v);
    }
  }

  lemma FloodKeepsFlag(c: Config, s: Sys, pk: Packet, p: Node)
    requires pk in s.bag && pk.Flood?
    ensures StateOf(Deliver(c, s, pk), p).delivered == StateOf(s, p).delivered
  {
    hide Accepts, Copies;
  }

  lemma CheckDelivers(c: Config, s: Sys, v: Node, source: Node)
    requires Check(v, source) in s.bag && !StateOf(s, v).delivered && Accepts(PathsOf(s, v), source, v, c.f)
    ensures v in Deliver(c, s, Check(v, source)).attributed
    ensures Deliver(c, s, Check(v, source)).attributed[v] == source
  {
    hide Accepts;
  }

  // ----- the fault budget is exact

  const ORIGIN := Node(0)
  const RECEIVER := Node(1)
  const ABSENT := Node(2)

  function Liar(i: nat): Node { Node(3 + i) }

  function Liars(n: nat): set<Node> {
    if n == 0 then {} else Liars(n - 1) + {Liar(n - 1)}
  }

  lemma {:induction false} LiarsAre(n: nat)
    ensures |Liars(n)| == n
    ensures forall x :: x in Liars(n) ==> 3 <= x.rank < 3 + n
    ensures forall i: nat :: i < n ==> Liar(i) in Liars(n)
  {
    if n > 0 {
      LiarsAre(n - 1);
    }
  }

  /** A receiver next to the originator and to |n| liars; one correct process is out of reach. */
  function Star(f: nat, n: nat): Config {
    Config({ORIGIN, RECEIVER, ABSENT} + Liars(n), map[ORIGIN := {RECEIVER}, RECEIVER := {ORIGIN} + Liars(n)],
           {ORIGIN, RECEIVER, ABSENT}, Liars(n), f, Some(ORIGIN))
  }

  lemma StarIsLegal(f: nat, n: nat)
    ensures Legal(Star(f, n)) && Faulty(Star(f, n)) == Liars(n) && |Liars(n)| == n
  {
    LiarsAre(n);
    var three := {ORIGIN, RECEIVER, ABSENT};
    assert forall x :: x in Liars(n) ==> x !in three;
    assert three + Liars(n) - three == Liars(n);
  }

  /** What the receiver records: the originator and then one liar after the other. */
  function Singles(k: nat): seq<Path> {
    if k == 0 then [[ORIGIN]] else Singles(k - 1) + [[Liar(k - 1)]]
  }

  lemma {:induction false} SinglesAt(k: nat)
    ensures |Singles(k)| == k + 1 && Singles(k)[0] == [ORIGIN]
    ensures forall i :: 0 < i <= k ==> Singles(k)[i] == [Liar(i - 1)]
  {
    if k > 0 {
      SinglesAt(k - 1);
    }
  }

  lemma SingleInternal(x: Node)
    requires x !in {RECEIVER, ABSENT}
    ensures Internal([x], ABSENT, RECEIVER) == {x}
  {
  }

  lemma PicksAppend(paths: seq<Path>, path: Path, source: Node, me: Node)
    requires !Clashes(paths, Picks(paths, source, me), path, source, me)
    ensures |Picks(paths + [path], source, me)| == |Picks(paths, source, me)| + 1
  {
    hide Clashes, Internal;
    assert (paths + [path])[..|paths|] == paths;
  }

  lemma {:induction false} SinglesAllPicked(k: nat)
    ensures |Picks(Singles(k), ABSENT, RECEIVER)| == k + 1
  {
    hide Internal, Clashes, Picks;
    if k == 0 {
      FirstPick();
    } else {
      SinglesAllPicked(k - 1);
      NoClash(k - 1, Picks(Singles(k - 1), ABSENT, RECEIVER));
      PicksAppend(Singles(k - 1), [Liar(k - 1)], ABSENT, RECEIVER);
    }
  }

  lemma FirstPick()
    ensures |Picks(Singles(0), ABSENT, RECEIVER)| == 1
  {
    hide Internal;
    assert [[ORIGIN]] == [] + [[ORIGIN]];
    PicksAppend([], [ORIGIN], ABSENT, RECEIVER);
  }

  lemma NoClash(k: nat, picks: seq<nat>)
    requires forall j :: 0 <= j < |picks| ==> picks[j] < |Singles(k)|
    ensures !Clashes(Singles(k), picks, [Liar(k)], ABSENT, RECEIVER)
  {
    hide Internal;
    SinglesAt(k);
    SingleInternal(Liar(k));
    forall j | 0 <= j < |picks|
      ensures Internal(Singles(k)[picks[j]], ABSENT, RECEIVER) * {Liar(k)} == {}
    {
      SingleInternal(if picks[j] == 0 then ORIGIN else Liar(picks[j] - 1));
    }
  }

  lemma ExtendRun(c: Config, run: seq<Sys>, pk: Packet, s': Sys)
    requires Run(c, run) && StepOf(c, run[|run| - 1], pk, s')
    ensures Run(c, run + [s'])
  {
    hide StepOf, Started;
    var longer := run + [s'];
    forall i | 0 <= i < |longer| - 1
      ensures Step(c, longer[i], longer[i + 1])
    {
      if i < |run| - 1 {
        assert Step(c, run[i], run[i + 1]);
      }
    }
  }

  predicate HasHeard(s: Sys, k: nat) {
    && PathsOf(s, RECEIVER) == Singles(k) && !StateOf(s, RECEIVER).delivered
    && (k > 0 ==> Check(RECEIVER, ABSENT) in s.bag)
  }

  lemma OriginatorHeard(f: nat, n: nat) returns (run: seq<Sys>)
    ensures Run(Star(f, n), run) && HasHeard(run[|run| - 1], 0)
  {
    hide Deliver, Run, Forwards;
    var c := Star(f, n);
    var s, pk := Started(c), Flood(ORIGIN, RECEIVER, ORIGIN, []);
    FirstSent(c, ORIGIN, RECEIVER);
    StartRun(c);
    DeliverPaths(c, s, pk, RECEIVER);
    FloodKeepsFlag(c, s, pk, RECEIVER);
    ExtendRun(c, [s], pk, Deliver(c, s, pk));
    run := [s] + [Deliver(c, s, pk)];
    assert [] + [ORIGIN] == [ORIGIN] && [] + [[ORIGIN]] == [[ORIGIN]];
  }

  lemma StartRun(c: Config)
    ensures Run(c, [Started(c)])
  {
  }

  lemma LiarHeard(c: Config, s: Sys, k: nat)
    requires HasHeard(s, k) && Liar(k) in Nbrs(c, RECEIVER)
    ensures var lie := Flood(Liar(k), RECEIVER, ABSENT, []); HasHeard(Deliver(c, Inject(s, lie), lie), k + 1)
  {
    hide Deliver, Forwards;
    var lie := Flood(Liar(k), RECEIVER, ABSENT, []);
    var t := Inject(s, lie);
    DeliverPaths(c, t, lie, RECEIVER);
    FloodKeepsFlag(c, t, lie, RECEIVER);
    DeliverBag(c, t, lie);
    SinglesAt(k);
    assert [] + [Liar(k)] == [Liar(k)];
    assert [Liar(k)] !in Singles(k);
  }

  lemma {:induction false} LiarsHeard(f: nat, n: nat, k: nat) returns (run: seq<Sys>)
    requires k <= n
    ensures Run(Star(f, n), run) && HasHeard(run[|run| - 1], k)
  {
    hide Deliver, Run, HasHeard;
    if k == 0 {
      run := OriginatorHeard(f, n);
    } else {
      var c, lie := Star(f, n), Flood(Liar(k - 1), RECEIVER, ABSENT, []);
      var before := LiarsHeard(f, n, k - 1);
      assert before != [] by { RunIsNonempty(c, before); }
      var s := before[|before| - 1];
      LiarsAre(n);
      assert MayInject(c, lie);
      ExtendRun(c, before, lie, Inject(s, lie));
      ExtendRun(c, before + [Inject(s, lie)], lie, Deliver(c, Inject(s, lie), lie));
      LiarHeard(c, s, k - 1);
      run := before + [Inject(s, lie)] + [Deliver(c, Inject(s, lie), lie)];
    }
  }

  lemma RunIsNonempty(c: Config, run: seq<Sys>)
    requires Run(c, run)
    ensures run != []
  {
  }

  /** With as many liars as budgeted, and at least one, the attribution can be wrong: liars next to
      the receiver relabel a message that a correct process really broadcast. */
  lemma MisattributionAtBudget(f: nat, n: nat) returns (c: Config, run: seq<Sys>, v: Node)
    requires n >= f && n >= 1
    ensures Legal(c) && Run(c, run) && c.f == f && |Faulty(c)| == n
    ensures v in run[|run| - 1].attributed && run[|run| - 1].attributed[v] in c.correct
    ensures c.origin.Some? && c.origin.value != run[|run| - 1].attributed[v]
  {
    hide Deliver, Run, Picks;
    c, v := Star(f, n), RECEIVER;
    StarIsLegal(f, n);
    var before := LiarsHeard(f, n, n);
    assert before != [] by { RunIsNonempty(c, before); }
    var s := before[|before| - 1];
    SinglesAllPicked(n);
    CheckDelivers(c, s, v, ABSENT);
    ExtendRun(c, before, Check(v, ABSENT), Deliver(c, s, Check(v, ABSENT)));
    run := before + [Deliver(c, s, Check(v, ABSENT))];
  }

  lemma FirstSent(c: Config, o: Node, v: Node)
    requires c.origin == Some(o) && v in c.correct && v in c.nodes && v in Nbrs(c, o) && v != o
    ensures Flood(o, v, o, []) in Started(c).bag
    ensures StateOf(Started(c), v) == IDLE
  {
    assert Flood(o, v, o, []) in Copies(c, o, (c.nodes - {o}) * Nbrs(c, o), o, []);
  }

  /** A delivery attributed to a correct process is the originator's. */
  predicate RightAt(c: Config, s: Sys, v: Node) {
    v in s.attributed && s.attributed[v] in c.correct ==> c.origin == Some(s.attributed[v])
  }

  ghost predicate AllRight(c: Config, s: Sys) { forall v :: RightAt(c, s, v) }

  ghost predicate RightlyAttributed(c: Config, run: seq<Sys>) {
    Legal(c) && Run(c, run) ==> AllRight(c, run[|run| - 1])
  }

  /** Exactly how many faulty processes leave the attribution to correct sources right, in all
      systems and all runs: fewer than budgeted, or none. */
  lemma AttributionExact(f: nat, n: nat)
    ensures (forall c: Config, run: seq<Sys> :: c.f == f && |Faulty(c)| == n ==> RightlyAttributed(c, run))
      <==> n < f || n == 0
  {
    hide Run, Legal;
    if n < f || n == 0 {
      forall c: Config, run: seq<Sys> | c.f == f && |Faulty(c)| == n
        ensures RightlyAttributed(c, run)
      {
        if Legal(c) && Run(c, run) {
          AttributionRight(c, run);
        }
      }
    } else {
      var c, run, v := MisattributionAtBudget(f, n);
      assert run != [] by { RunIsNonempty(c, run); }
      assert !RightAt(c, run[|run| - 1], v);
      assert !RightlyAttributed(c, run);
    }
  }

  lemma AttributionRight(c: Config, run: seq<Sys>)
    requires Legal(c) && Run(c, run) && (|Faulty(c)| < c.f || |Faulty(c)| == 0)
    ensures RightlyAttributed(c, run)
  {
    hide Run;
    assert run != [] by { RunIsNonempty(c, run); }
    var s := run[|run| - 1];
    forall v
      ensures RightAt(c, s, v)
    {
      if v !in s.attributed || s.attributed[v] !in c.correct {
      } else if |Faulty(c)| < c.f {
        NoMisattribution(c, run, v);
      } else {
        assert Faulty(c) == {};
        Delivery.RunKeepsDue(c, run);
        assert Delivery.DueAt(c, run[|run| - 1], v);
      }
    }
  }
}
