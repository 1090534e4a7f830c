/** One optimized Dolev broadcast among honest, silent and selective processes: whatever the
    interleaving, deliveries rest on evidence in the real topology, and happen once. */
module DolevEvidence {
  import opened Base
  import opened Ordering
  import opened Topology
  import opened DisjointSearch
  import opened Dolev

  /** |silent| processes drop what they receive. A |selective| source sends to the first half of
      its neighbours only. A |standalone| source delivers to itself when it broadcasts. */
  datatype Config = Config(
    nodes: set<Node>, nbrs: Neighbours, peers: map<Node, seq<Node>>, f: nat,
    source: Node, selective: bool, silent: set<Node>, standalone: bool)

  function PeersOf(c: Config, p: Node): seq<Node> { if p in c.peers then c.peers[p] else [] }

  predicate Legal(c: Config) {
    && c.source in c.nodes
    && forall p, q :: p in c.nodes && q in PeersOf(c, p) ==> q in c.nodes && q != p
  }

  function EnvOf(c: Config, p: Node): Env { Env(p, PeersOf(c, p), NbrsOf(c.nbrs, p), c.f) }

  datatype Packet = Wire(m: Msg) | Todo(t: Task)

  datatype Sys = Sys(states: map<Node, State>, bag: multiset<Packet>, upcalls: multiset<Node>)

  function StateOf(s: Sys, p: Node): State { if p in s.states then s.states[p] else IDLE }

  function FirstTargets(c: Config): set<Node> {
    var all := NbrsOf(c.nbrs, c.source);
    if c.selective then Elems(Sorted(all)[..|all| / 2]) else all
  }

  function Started(c: Config): Sys {
    var out := set q | q in PeersOf(c, c.source) && q in FirstTargets(c) :: Wire(Msg(c.source, q, c.source, []));
    Sys(if c.standalone then map[c.source := IDLE.(delivered := true)] else map[], multiset(out), multiset{})
  }

  function MsgOf(pk: Packet): Msg {
    match pk
    case Wire(m) => m
    case Todo(t) => t.m
  }

  ghost function Handled(c: Config, st: State, pk: Packet): Result {
    match pk
    case Wire(m) => ArriveStep(EnvOf(c, m.dst), m.dst in c.silent, st, m)
    case Todo(t) => TaskStep(EnvOf(c, t.m.dst), st, t)
  }

  function After(s: Sys, pk: Packet, r: Result): Sys {
    var p := MsgOf(pk).dst;
    Sys(s.states[p := r.state],
        s.bag - multiset{pk} + multiset(set m | m in r.sends :: Wire(m)) +
          (if r.next.Some? then multiset{Todo(r.next.value)} else multiset{}),
        if r.upcall then s.upcalls + multiset{p} else s.upcalls)
  }

  ghost function Deliver(c: Config, s: Sys, pk: Packet): Sys {
    After(s, pk, Handled(c, StateOf(s, MsgOf(pk).dst), pk))
  }

  ghost predicate StepOf(c: Config, s: Sys, pk: Packet, s': Sys) {
    pk in s.bag && s' == Deliver(c, s, pk)
  }

  ghost predicate Step(c: Config, s: Sys, s': Sys) {
    exists pk: Packet :: StepOf(c, s, pk, s')
  }

  ghost predicate Run(c: Config, run: seq<Sys>) {
    && run != [] && run[0] == Started(c)
    && forall i :: 0 <= i < |run| - 1 ==> Step(c, run[i], run[i + 1])
  }

  // ----- what every run keeps

  /** Who can have passed a message on: the source and everybody not silent. */
  function Via(c: Config): set<Node> { c.nodes - c.silent + {c.source} }

  predicate Genuine(c: Config, p: Path, v: Node) { Trail(c.nbrs, Via(c), c.source, p, v) }

  /** A message on the wire: first hand from the source, an EMPTY, or relayed along a walk. */
  predicate Honest(c: Config, m: Msg) {
    && m.source == c.source && m.dst in c.nodes && m.dst != m.src
    && m.dst in NbrsOf(c.nbrs, m.src)
    && (m.src == c.source ==> m.path == [])
    && (m.path != [] ==> SimpleWalk(c.nbrs, Via(c), c.source, m.path + [m.src]) && m.dst !in m.path)
  }

  /** A message being handled was accepted from a neighbour by a process that takes part. */
  predicate Accepted(c: Config, m: Msg) {
    Honest(c, m) && m.src in NbrsOf(c.nbrs, m.dst) && m.dst in Via(c) - {c.source}
  }

  predicate TaskOk(c: Config, t: Task) {
    && Accepted(c, t.m)
    && (t.Relay? ==>
      && (t.m.path != [] || t.m.src == c.source)
      && forall q :: q in t.rest ==> q in c.nodes && q != t.m.dst)
  }

  predicate PacketOk(c: Config, pk: Packet) {
    match pk
    case Wire(m) => Honest(c, m)
    case Todo(t) => TaskOk(c, t)
  }

  /** The links of the real topology. */
  function RealGraph(c: Config): Graph {
    set u, w | u in c.nodes && w in c.nodes && Link(c.nbrs, u, w) :: Edge(u, w)
  }

  /** What a delivery rests on. */
  ghost predicate Evidence(c: Config, v: Node) {
    Link(c.nbrs, c.source, v) || DisjointPaths(RealGraph(c), c.source, v, c.f + 1)
  }

  ghost predicate StateOk(c: Config, st: State, v: Node) {
    && (forall p: Path :: p in st.paths ==> Genuine(c, p, v))
    && (st.delivered && v != c.source ==> Evidence(c, v))
  }

  ghost predicate Inv(c: Config, s: Sys) {
    && (forall pk :: pk in s.bag ==> PacketOk(c, pk))
    && (forall v :: v in c.nodes ==> StateOk(c, StateOf(s, v), v))
    && (forall v :: v in c.nodes && v != c.source ==> s.upcalls[v] == if StateOf(s, v).delivered then 1 else 0)
  }

  /** A simple path of the union graph of genuine paths is a path of the real topology. */
  lemma UnionIsReal(c: Config, paths: seq<Path>, v: Node, p: Path)
    requires Legal(c) && v in c.nodes
    requires forall q: Path :: q in paths ==> Genuine(c, q, v)
    requires IsPath(UnionGraph(paths, c.source, v), p, c.source, v)
    ensures IsPath(RealGraph(c), p, c.source, v)
  {
    hide UnionGraph, Genuine, RealGraph;
    forall i | 0 <= i < |p| - 1
      ensures Adjacent(RealGraph(c), p[i], p[i + 1])
    {
      assert p[i] != p[i + 1];
      if Edge(p[i], p[i + 1]) in UnionGraph(paths, c.source, v) {
        EdgeIsReal(c, paths, v, Edge(p[i], p[i + 1]));
      } else {
        EdgeIsReal(c, paths, v, Edge(p[i + 1], p[i]));
      }
    }
  }

  lemma EdgeIsReal(c: Config, paths: seq<Path>, v: Node, e: Edge)
    requires Legal(c) && v in c.nodes && e in UnionGraph(paths, c.source, v) && e.a != e.b
    requires forall q: Path :: q in paths ==> Genuine(c, q, v)
    ensures e in RealGraph(c)
  {
    hide UnionGraph, WalkEdges, Distinct;
    var k := UnionOnly(paths, c.source, v, e);
    var path := paths[k];
    assert path in paths && Genuine(c, path, v);
    var full := FullPath(path, c.source, v);
    var i := WalkOnly(full, e);
    assert i > 0;
    assert full[i] == path[i - 1] && path[i - 1] in Via(c);
    assert full[i + 1] == if i < |path| then path[i] else v;
    assert Link(c.nbrs, full[i], full[i + 1]);
  }

  lemma EnoughIsEvidence(c: Config, st: State, v: Node)
    requires Legal(c) && v in c.nodes && StateOk(c, st, v) && Enough(EnvOf(c, v), st, c.source)
    ensures Evidence(c, v)
  {
    hide UnionGraph, Genuine, RealGraph, IsPath;
    forall p: Path | IsPath(UnionGraph(st.paths, c.source, v), p, c.source, v)
      ensures IsPath(RealGraph(c), p, c.source, v)
    {
      UnionIsReal(c, st.paths, v, p);
    }
    DisjointPathsMonotone(UnionGraph(st.paths, c.source, v), RealGraph(c), c.source, v, c.f + 1);
  }

  // ----- one handler segment

  ghost predicate ResultOk(c: Config, st: State, v: Node, r: Result) {
    && StateOk(c, r.state, v)
    && (forall m :: m in r.sends ==> Honest(c, m))
    && (r.next.Some? ==> TaskOk(c, r.next.value) && r.next.value.m.dst == v)
    && (r.state.delivered <==> st.delivered || r.upcall) && (r.upcall ==> !st.delivered)
  }

  /** The path a relaying process records and passes on is genuine. */
  lemma LongerIsGenuine(c: Config, m: Msg)
    requires Legal(c) && Accepted(c, m) && (m.path != [] || m.src == c.source)
    ensures Genuine(c, m.path + [m.src], m.dst)
  {
    var longer := m.path + [m.src];
    assert longer[|longer| - 1] == m.src;
    if m.path == [] {
      assert longer == [c.source];
    }
  }

  lemma BodyOk(c: Config, st: State, m: Msg)
    requires Legal(c) && StateOk(c, st, m.dst) && Accepted(c, m)
    ensures ResultOk(c, st, m.dst, BodyStep(EnvOf(c, m.dst), st, m))
  {
    hide Evidence, Genuine;
    if m.path != [] || m.src == c.source {
      LongerIsGenuine(c, m);
    }
  }

  lemma EmptyOk(c: Config, st: State, m: Msg, direct: bool)
    requires Legal(c) && StateOk(c, st, m.dst) && Accepted(c, m)
    ensures ResultOk(c, st, m.dst, EmptyStep(EnvOf(c, m.dst), st, m, direct))
  {
    hide Evidence, Genuine, BodyStep;
    if st.forwardedEmpty && direct {
      BodyOk(c, st, m);
    }
  }

  lemma RelayedIsHonest(c: Config, m: Msg, q: Node)
    requires Legal(c) && Accepted(c, m) && (m.path != [] || m.src == c.source)
    requires q in NbrsOf(c.nbrs, m.dst) && q !in m.path + [m.src] && q in c.nodes && q != m.dst
    ensures Honest(c, Msg(m.dst, q, m.source, m.path + [m.src]))
  {
    hide SimpleWalk;
    LongerIsGenuine(c, m);
    ExtendTrail(c.nbrs, Via(c), c.source, m.path + [m.src], m.dst);
  }

  lemma HandledOk(c: Config, st: State, pk: Packet)
    requires Legal(c) && PacketOk(c, pk) && StateOk(c, st, MsgOf(pk).dst)
    ensures ResultOk(c, st, MsgOf(pk).dst, Handled(c, st, pk))
  {
    hide Evidence, Genuine, BodyStep, EmptyStep, Enough, Accepted;
    var m := MsgOf(pk);
    match pk {
      case Wire(_) =>
        ArrivalOk(c, st, m);
      case Todo(AfterUpcall(_, direct)) =>
        EmptyOk(c, st, m, direct);
      case Todo(EmptySent(_, direct)) =>
        BodyOk(c, st.(forwardedEmpty := true), m);
      case Todo(Relay(_, rest, live)) =>
        RelayOk(c, st, pk.t);
    }
  }

  lemma RelayOk(c: Config, st: State, t: Task)
    requires Legal(c) && t.Relay? && TaskOk(c, t) && StateOk(c, st, t.m.dst)
    ensures ResultOk(c, st, t.m.dst, TaskStep(EnvOf(c, t.m.dst), st, t))
  {
    hide Evidence, Genuine, EmptyStep, Enough, Honest, SimpleWalk;
    var m := t.m;
    if t.rest == [] {
      EmptyOk(c, st, m, false);
      AcceptedFacts(c, m);
      if Enough(EnvOf(c, m.dst), st, c.source) {
        EnoughIsEvidence(c, st, m.dst);
      }
    } else if Wanted(EnvOf(c, m.dst), st, m, t.rest[0], t.live) {
      RelayedIsHonest(c, m, t.rest[0]);
    }
  }

  lemma AcceptedFacts(c: Config, m: Msg)
    requires Accepted(c, m)
    ensures m.source == c.source && m.dst in c.nodes
  {
  }

  lemma ArrivalOk(c: Config, st: State, m: Msg)
    requires Legal(c) && Honest(c, m) && StateOk(c, st, m.dst)
    ensures ResultOk(c, st, m.dst, ArriveStep(EnvOf(c, m.dst), m.dst in c.silent, st, m))
  {
    hide Genuine, SimpleWalk;
    if m.dst == c.source {
      SourceKeepsNothing(c, m);
    } else if m.src in NbrsOf(c.nbrs, m.dst) && m.dst !in c.silent {
      BodyOk(c, st, m);
    }
  }

  /** Only EMPTY messages reach the source: every relayed path begins with it. */
  lemma SourceKeepsNothing(c: Config, m: Msg)
    requires Honest(c, m) && m.dst == c.source
    ensures m.path == [] && m.src != c.source
  {
  }

  lemma AfterFacts(s: Sys, pk: Packet, r: Result, s': Sys)
    requires pk in s.bag && s' == After(s, pk, r)
    ensures forall p :: StateOf(s', p) == if p == MsgOf(pk).dst then r.state else StateOf(s, p)
    ensures forall x :: x in s'.bag ==> x in s.bag || (x.Wire? && x.m in r.sends) || (x.Todo? && r.next == Some(x.t))
    ensures forall p :: s'.upcalls[p] == s.upcalls[p] + if r.upcall && p == MsgOf(pk).dst then 1 else 0
  {
  }

  lemma InvAfter(c: Config, s: Sys, pk: Packet)
    requires Legal(c) && Inv(c, s) && pk in s.bag
    ensures Inv(c, Deliver(c, s, pk))
  {
    hide Handled, After, StateOk, StateOf, TaskOk, Honest;
    var v := MsgOf(pk).dst;
    var r, s' := Handled(c, StateOf(s, v), pk), Deliver(c, s, pk);
    PacketDst(c, pk);
    HandledOk(c, StateOf(s, v), pk);
    AfterFacts(s, pk, r, s');
  }

  lemma PacketDst(c: Config, pk: Packet)
    requires PacketOk(c, pk)
    ensures MsgOf(pk).dst in c.nodes
  {
  }

  lemma InvStarted(c: Config)
    requires Legal(c)
    ensures Inv(c, Started(c))
  {
    hide Evidence, FirstTargets;
    assert FirstTargets(c) <= NbrsOf(c.nbrs, c.source) by { TargetsAreNeighbours(c); }
  }

  /** A selective source sends to the half of its neighbours, rounded down, that sorts first. */
  lemma SelectiveTargets(c: Config, x: Node, y: Node)
    ensures var all := NbrsOf(c.nbrs, c.source);
            && |FirstTargets(c)| == (if c.selective then |all| / 2 else |all|)
            && (x in FirstTargets(c) && y in all - FirstTargets(c) ==> x.rank < y.rank)
  {
    hide Sorted;
    var all := NbrsOf(c.nbrs, c.source);
    var order, half := Sorted(all), |all| / 2;
    if c.selective {
      SortedDistinct(all);
      DistinctSize(order[..half]);
      if x in Elems(order[..half]) && y in all && y !in Elems(order[..half]) {
        assert forall k :: 0 <= k < half ==> order[k] == order[..half][k] && order[k] in Elems(order[..half]);
        var i :| 0 <= i < half && order[..half][i] == x;
        assert y in Elems(order);
        var j :| 0 <= j < |order| && order[j] == y;
        assert order[j] !in Elems(order[..half]);
      }
    }
  }

  lemma TargetsAreNeighbours(c: Config)
    ensures FirstTargets(c) <= NbrsOf(c.nbrs, c.source)
  {
    hide Sorted;
    var all := NbrsOf(c.nbrs, c.source);
    assert forall x :: x in Sorted(all)[..|all| / 2] ==> x in Elems(Sorted(all));
  }

  lemma {:induction false} RunKeepsInv(c: Config, run: seq<Sys>)
    requires Legal(c) && Run(c, run)
    ensures Inv(c, run[|run| - 1])
  {
    hide Inv, Deliver, Started;
    var n := |run| - 1;
    if n == 0 {
      InvStarted(c);
    } else {
      assert Run(c, run[..n]);
      RunKeepsInv(c, run[..n]);
      assert Step(c, run[n - 1], run[n]);
      var pk: Packet :| StepOf(c, run[n - 1], pk, run[n]);
      InvAfter(c, run[n - 1], pk);
    }
  }

  /** Every recorded path is a simple walk of the real topology from the source over processes
      that are not silent. */
  lemma RecordedPathsAreGenuine(c: Config, run: seq<Sys>, v: Node, p: Path)
    requires Legal(c) && Run(c, run) && v in c.nodes && p in StateOf(run[|run| - 1], v).paths
    ensures Genuine(c, p, v)
  {
    hide Genuine, Evidence, Step;
    RunKeepsInv(c, run);
    assert StateOk(c, StateOf(run[|run| - 1], v), v);
  }

  /** Whoever has delivered, other than the originator, is a direct neighbour of the source or
      has f+1 internally disjoint paths from it in the real topology. */
  lemma DeliveryHasEvidence(c: Config, run: seq<Sys>, v: Node)
    requires Legal(c) && Run(c, run) && v in c.nodes && v != c.source
    requires StateOf(run[|run| - 1], v).delivered
    ensures Link(c.nbrs, c.source, v) || DisjointPaths(RealGraph(c), c.source, v, c.f + 1)
  {
    hide Genuine, Step;
    RunKeepsInv(c, run);
    assert StateOk(c, StateOf(run[|run| - 1], v), v);
  }

  /** The parent protocol gets a broadcast at most once, exactly when it was delivered, however
      handlers interleave at their waiting points. */
  lemma UpcallAtMostOnce(c: Config, run: seq<Sys>, v: Node)
    requires Legal(c) && Run(c, run) && v in c.nodes && v != c.source
    ensures run[|run| - 1].upcalls[v] == if StateOf(run[|run| - 1], v).delivered then 1 else 0
  {
    hide StateOk, PacketOk, Step;
    RunKeepsInv(c, run);
  }

  // ----- what the source's neighbours get

  /** The source sends to |v| first hand and |v| takes part and listens to it. */
  predicate FirstHand(c: Config, v: Node) {
    && v in c.nodes - c.silent && v in PeersOf(c, c.source) && v in FirstTargets(c)
    && c.source in NbrsOf(c.nbrs, v)
  }

  function Original(c: Config, v: Node): Packet { Wire(Msg(c.source, v, c.source, [])) }

  lemma HandledKeepsDelivered(c: Config, st: State, pk: Packet)
    ensures st.delivered ==> Handled(c, st, pk).state.delivered
  {
    hide Enough;
  }

  lemma OriginalDelivers(c: Config, st: State, v: Node)
    requires FirstHand(c, v)
    ensures Handled(c, st, Original(c, v)).state.delivered
  {
    hide BodyStep, FirstTargets;
    HandledKeepsDelivered(c, st, Original(c, v));
  }

  lemma {:induction false} OriginalPendingOrDelivered(c: Config, run: seq<Sys>, v: Node)
    requires Run(c, run) && FirstHand(c, v)
    ensures Original(c, v) in run[|run| - 1].bag || StateOf(run[|run| - 1], v).delivered
  {
    hide Handled, After, StateOf, FirstHand, FirstTargets;
    var n := |run| - 1;
    if n == 0 {
      OriginalSent(c, v);
    } else {
      assert Run(c, run[..n]);
      OriginalPendingOrDelivered(c, run[..n], v);
      assert Step(c, run[n - 1], run[n]);
      var pk: Packet :| StepOf(c, run[n - 1], pk, run[n]);
      var st := StateOf(run[n - 1], MsgOf(pk).dst);
      HandledKeepsDelivered(c, st, pk);
      OriginalDelivers(c, st, v);
      AfterFacts(run[n - 1], pk, Handled(c, st, pk), run[n]);
      AfterKeeps(run[n - 1], pk, Handled(c, st, pk));
    }
  }

  lemma AfterKeeps(s: Sys, pk: Packet, r: Result)
    requires pk in s.bag
    ensures forall x :: x in s.bag && x != pk ==> x in After(s, pk, r).bag
  {
  }

  lemma OriginalSent(c: Config, v: Node)
    requires FirstHand(c, v)
    ensures Original(c, v) in Started(c).bag
  {
    hide FirstTargets;
  }

  /** Direct delivery: at rest every process the source sends to first hand has delivered, on this
      one message and whatever the connectivity, and was given the broadcast exactly once. */
  lemma NeighboursDeliver(c: Config, run: seq<Sys>, v: Node)
    requires Legal(c) && Run(c, run) && FirstHand(c, v) && run[|run| - 1].bag == multiset{}
    ensures StateOf(run[|run| - 1], v).delivered
    ensures v != c.source ==> run[|run| - 1].upcalls[v] == 1
  {
    hide Step, FirstHand, StateOf;
    OriginalPendingOrDelivered(c, run, v);
    if v != c.source {
      assert v in c.nodes by { FirstHandIsNode(c, v); }
      UpcallAtMostOnce(c, run, v);
    }
  }

  lemma FirstHandIsNode(c: Config, v: Node)
    requires FirstHand(c, v)
    ensures v in c.nodes
  {
  }
}
