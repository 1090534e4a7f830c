/** What a flood without lying processes computes: at rest every correct process has recorded
    exactly the simple correct paths from the source to it, and every flood comes to rest. */
module DolevExactness {
  import opened Base
  import opened Ordering
  import Topology
  import opened Bags
  import opened DolevNaive
  import opened DolevFlood

  type Path = Topology.Path

  predicate Link(c: Config, u: Node, w: Node) { Topology.Link(c.nbrs, u, w) }

  /** A simple walk over correct processes that begins at the originator. */
  predicate SimpleWalk(c: Config, p: Path) {
    c.origin.Some? && Topology.SimpleWalk(c.nbrs, c.correct, c.origin.value, p)
  }

  /** A simple path of correct processes from the originator to |v|. */
  predicate Trail(c: Config, p: Path, v: Node) {
    c.origin.Some? && Topology.Trail(c.nbrs, c.correct, c.origin.value, p, v)
  }

  lemma ExtendTrail(c: Config, p: Path, v: Node)
    requires v in c.correct && c.origin.Some?
    ensures Trail(c, p, v) ==> SimpleWalk(c, p + [v])
    ensures SimpleWalk(c, p + [v]) && p != [] ==> Trail(c, p, v)
  {
    Topology.ExtendTrail(c.nbrs, c.correct, c.origin.value, p, v);
  }

  ghost predicate Outbound(c: Config, x: Packet)
    requires x.Flood?
  {
    && SimpleWalk(c, x.path + [x.src]) && c.origin == Some(x.source)
    && x.dst !in x.path + [x.src] && x.dst in Nbrs(c, x.src) && x.dst in c.correct
  }

  ghost predicate Sound(c: Config, s: Sys) {
    && (forall x: Packet :: x in s.bag && x.Flood? ==> Outbound(c, x))
    && (forall v, p: Path :: v in c.correct && p in PathsOf(s, v) ==> Trail(c, p, v))
  }

  /** Each path recorded at |u| is on its way to, or recorded at, every neighbour it can reach. */
  ghost predicate Passed(c: Config, s: Sys, o: Node, u: Node, q: Path, w: Node) {
    Flood(u, w, o, q) in s.bag || q + [u] in PathsOf(s, w)
  }

  ghost predicate Complete(c: Config, s: Sys, o: Node) {
    && (forall w :: w in c.correct && Link(c, o, w) ==> Passed(c, s, o, o, [], w))
    && (forall u, q: Path, w :: u in c.correct && w in c.correct && q in PathsOf(s, u) && Link(c, u, w) && w !in q
          ==> Passed(c, s, o, u, q, w))
  }

  ghost predicate Inv(c: Config, s: Sys) {
    && Sound(c, s)
    && (c.origin.Some? ==> Complete(c, s, c.origin.value))
    && (forall v :: v in c.correct ==> Distinct(PathsOf(s, v)))
  }

  lemma SoundAfter(c: Config, s: Sys, pk: Packet, s': Sys)
    requires Legal(c) && Sound(c, s) && pk in s.bag && s' == Deliver(c, s, pk)
    ensures Sound(c, s')
  {
    hide Deliver, PathsOf, Topology.SimpleWalk;
    DeliverFacts(c, s, pk, s');
    if Heard(c, pk) {
      var longer := pk.path + [pk.src];
      assert Outbound(c, pk);
      assert longer[|longer| - 1] == pk.src;
      assert Trail(c, longer, pk.dst);
      ExtendTrail(c, longer, pk.dst);
      forall x: Packet | Forwarded(c, pk, x)
        ensures Outbound(c, x)
      {
      }
    }
  }

  lemma CompleteAfter(c: Config, s: Sys, pk: Packet, s': Sys, o: Node)
    requires Legal(c) && c.origin == Some(o) && Sound(c, s) && Complete(c, s, o)
    requires pk in s.bag && s' == Deliver(c, s, pk)
    ensures Complete(c, s', o)
  {
    hide Deliver, PathsOf, SimpleWalk, Trail;
    DeliverFacts(c, s, pk, s');
    forall u, q: Path, w | Link(c, u, w) && Passed(c, s, o, u, q, w)
      ensures Passed(c, s', o, u, q, w)
    {
    }
    forall u, q: Path, w | u in c.correct && w in c.correct && q in PathsOf(s', u) && Link(c, u, w) && w !in q
      ensures Passed(c, s', o, u, q, w)
    {
      if q !in PathsOf(s, u) {
        assert Outbound(c, pk) && w !in Elems(q);
        assert Forwarded(c, pk, Flood(u, w, o, q));
      }
    }
  }

  lemma InvAfter(c: Config, s: Sys, pk: Packet)
    requires Legal(c) && Inv(c, s) && pk in s.bag
    ensures Inv(c, Deliver(c, s, pk))
  {
    hide Deliver, PathsOf, Sound, Complete;
    var s' := Deliver(c, s, pk);
    SoundAfter(c, s, pk, s');
    if c.origin.Some? {
      CompleteAfter(c, s, pk, s', c.origin.value);
    }
    forall v | v in c.correct
      ensures Distinct(PathsOf(s', v))
    {
      DeliverPaths(c, s, pk, v);
    }
  }

  lemma InvStarted(c: Config)
    requires Legal(c)
    ensures Inv(c, Started(c))
  {
    var s := Started(c);
    if c.origin.Some? {
      var o := c.origin.value;
      assert forall x: Packet :: x in s.bag <==>
        x.Flood? && x == Flood(o, x.dst, o, []) && x.dst in (c.nodes - {o}) * Nbrs(c, o) && x.dst in c.correct;
      assert SimpleWalk(c, [] + [o]);
    }
  }

  lemma {:induction false} RunKeepsInv(c: Config, run: seq<Sys>)
    requires Legal(c) && c.liars == {} && Run(c, run)
    ensures Inv(c, run[|run| - 1])
  {
    hide Inv, Deliver, Inject, Started;
    var n := |run| - 1;
    if n == 0 {
      InvStarted(c);
    } else {
      assert Run(c, run[..n]);
      RunKeepsInv(c, run[..n]);
      assert Step(c, run[n - 1], run[n]);
      var pk: Packet :| StepOf(c, run[n - 1], pk, run[n]);
      InvAfter(c, run[n - 1], pk);
    }
  }

  /** At rest every simple path has been recorded: by induction along the path. */
  lemma {:induction false} AllTrailsRecorded(c: Config, s: Sys, p: Path, v: Node)
    requires Legal(c) && Inv(c, s) && Quiescent(s) && v in c.correct && Trail(c, p, v)
    ensures p in PathsOf(s, v)
    decreases |p|
  {
    hide PathsOf;
    var q, u, o := p[..|p| - 1], p[|p| - 1], c.origin.value;
    assert p == q + [u];
    if q == [] {
      assert Passed(c, s, o, o, [], v);
    } else {
      ExtendTrail(c, q, u);
      AllTrailsRecorded(c, s, q, u);
      assert Passed(c, s, o, u, q, v);
    }
  }

  /** Flood exactness: at rest a correct process has recorded precisely the simple paths from
      the source to it whose processes are all correct, each once; the source itself none. */
  lemma FloodExactness(c: Config, run: seq<Sys>, v: Node, p: Path)
    requires Legal(c) && c.liars == {} && Run(c, run) && Quiescent(run[|run| - 1]) && v in c.correct
    ensures Distinct(PathsOf(run[|run| - 1], v))
    ensures p in PathsOf(run[|run| - 1], v) <==> Trail(c, p, v)
  {
    hide PathsOf, Trail, Complete;
    RunKeepsInv(c, run);
    if Trail(c, p, v) {
      AllTrailsRecorded(c, run[|run| - 1], p, v);
    }
  }

  // ----- every flood comes to rest

  /** Deliveries a message can still cause when |room| processes are not yet on its path. */
  function Fuel(room: nat): nat {
    if room == 0 then 2 else 2 + room * Fuel(room - 1)
  }

  function Weight(c: Config, x: Packet): nat {
    match x
    case Check(_, _) => 1
    case Flood(_, _, _, path) => if |path| <= |c.nodes| then Fuel(|c.nodes| - |path|) else 0
  }

  ghost function WeightOf(c: Config): Packet -> nat { x => Weight(c, x) }

  ghost function Measure(c: Config, s: Sys): nat { Sum(s.bag, WeightOf(c)) }

  /** Fewer processes are off the forwarded path than off the received one. */
  lemma ForwardsAreFew(c: Config, pk: Packet)
    requires Legal(c) && pk.Flood? && Outbound(c, pk)
    ensures |pk.path| + 2 <= |c.nodes|
    ensures |Forwards(c, pk)| <= |c.nodes| - |pk.path| - 2
  {
    var longer := pk.path + [pk.src];
    var off := c.nodes - Elems(longer) - {pk.dst};
    DistinctSize(longer);
    assert Elems(longer) <= c.nodes;
    assert |c.nodes - Elems(longer)| == |c.nodes| - |longer|;
    var targets := set q | q in off && q in Nbrs(c, pk.dst) && q in c.correct;
    assert Forwards(c, pk) == set q | q in targets :: Flood(pk.dst, q, pk.source, longer);
    CopiesSize(pk.dst, pk.source, longer, targets);
    SubsetSize(targets, off);
  }

  lemma {:induction false} CopiesSize(p: Node, source: Node, path: Path, targets: set<Node>)
    ensures |set q | q in targets :: Flood(p, q, source, path)| <= |targets|
  {
    var copies := set q | q in targets :: Flood(p, q, source, path);
    if targets != {} {
      var t :| t in targets;
      CopiesSize(p, source, path, targets - {t});
      assert copies == (set q | q in targets - {t} :: Flood(p, q, source, path)) + {Flood(p, t, source, path)};
    } else {
      assert copies == {};
    }
  }

  lemma MulMono(a: nat, b: nat, x: nat)
    requires a <= b
    ensures a * x <= b * x
  {
  }

  lemma FuelCovers(room: nat, forwards: nat)
    requires room >= 2 && forwards <= room - 2
    ensures forwards * Fuel(room - 1) + 1 < Fuel(room)
  {
    MulMono(forwards, room, Fuel(room - 1));
  }

  /** What is sent on for a message, the pending check included, weighs less than the message. */
  lemma HeardConsumes(c: Config, pk: Packet)
    requires Legal(c) && pk.Flood? && Outbound(c, pk)
    ensures Sum(multiset(Forwards(c, pk)), WeightOf(c)) + 1 < Weight(c, pk)
  {
    hide Forwards, Fuel, Outbound, Sum;
    var out, room := Forwards(c, pk), |c.nodes| - |pk.path|;
    ForwardsAreFew(c, pk);
    FuelCovers(room, |out|);
    forall x | x in out
      ensures WeightOf(c)(x) <= Fuel(room - 1)
    {
      ForwardsFacts(c, pk, x);
    }
    SumBound(out, WeightOf(c), Fuel(room - 1));
  }

  /** Every delivery uses up weight. */
  lemma DeliverConsumes(c: Config, s: Sys, pk: Packet)
    requires Legal(c) && Sound(c, s) && pk in s.bag
    ensures Measure(c, Deliver(c, s, pk)) < Measure(c, s)
  {
    hide Deliver, Forwards, Fuel, Outbound, Sum, Heard;
    var w := WeightOf(c);
    var rest := s.bag - multiset{pk};
    SumRemove(s.bag, w, pk);
    DeliverBag(c, s, pk);
    if pk.Flood? {
      HeardConsumes(c, pk);
    }
    if Heard(c, pk) {
      var sent, check := multiset(Forwards(c, pk)), Check(pk.dst, pk.source);
      SumUnion(rest, sent + multiset{check}, w);
      SumInsert(sent, w, check);
    } else {
      assert rest + multiset{} == rest;
    }
  }

  /** Flood termination: without lying processes no run is longer than the initial weight. */
  lemma {:induction false} FloodTerminates(c: Config, run: seq<Sys>)
    requires Legal(c) && c.liars == {} && Run(c, run)
    ensures |run| - 1 + Measure(c, run[|run| - 1]) <= Measure(c, Started(c)) <= |c.nodes| * Fuel(|c.nodes|)
  {
    hide Inv, Deliver, Inject, Started, Measure, Fuel;
    var n := |run| - 1;
    if n == 0 {
      StartWeight(c);
    } else {
      assert Run(c, run[..n]);
      FloodTerminates(c, run[..n]);
      RunKeepsInv(c, run[..n]);
      InvIsSound(c, run[n - 1]);
      assert Step(c, run[n - 1], run[n]);
      var pk: Packet :| StepOf(c, run[n - 1], pk, run[n]);
      DeliverConsumes(c, run[n - 1], pk);
    }
  }

  lemma InvIsSound(c: Config, s: Sys)
    requires Inv(c, s)
    ensures Sound(c, s)
  {
  }

  lemma StartWeight(c: Config)
    requires Legal(c)
    ensures Measure(c, Started(c)) <= |c.nodes| * Fuel(|c.nodes|)
  {
    hide Fuel, Sum, Weight;
    if c.origin.Some? {
      var o := c.origin.value;
      var targets := (c.nodes - {o}) * Nbrs(c, o) * c.correct;
      var copies := Copies(c, o, (c.nodes - {o}) * Nbrs(c, o), o, []);
      assert copies == set q | q in targets :: Flood(o, q, o, []);
      CopiesSize(o, o, [], targets);
      SubsetSize(targets, c.nodes);
      StartWeights(c, o);
      SumBound(copies, WeightOf(c), Fuel(|c.nodes|));
      MulMono(|copies|, |c.nodes|, Fuel(|c.nodes|));
    } else {
      EmptyWeight(c);
    }
  }

  lemma StartWeights(c: Config, o: Node)
    ensures forall x :: x in Copies(c, o, (c.nodes - {o}) * Nbrs(c, o), o, []) ==> WeightOf(c)(x) <= Fuel(|c.nodes|)
  {
    hide Fuel;
  }

  lemma EmptyWeight(c: Config)
    ensures Sum(multiset{}, WeightOf(c)) == 0 <= |c.nodes| * Fuel(|c.nodes|)
  {
  }
}
