/** Every optimized Dolev broadcast comes to rest, and any run can be carried on until it does. */
module DolevTermination {
  import opened Base
  import opened Bags
  import opened Ordering
  import opened Topology
  import opened Dolev
  import opened DolevEvidence

  /** Every process has each other process as a peer, once. */
  predicate Acquainted(c: Config) {
    forall p :: p in c.nodes ==> Distinct(PeersOf(c, p)) && Elems(PeersOf(c, p)) == c.nodes - {p}
  }

  lemma PeersSize(c: Config, p: Node)
    requires Acquainted(c) && p in c.nodes
    ensures |PeersOf(c, p)| <= |c.nodes|
  {
    DistinctSize(PeersOf(c, p));
    SubsetSize(c.nodes - {p}, c.nodes);
  }

  // ----- what a message can still cause

  /** Deliveries a message can cause among |n| processes when |room| are not yet on its path. */
  function Fuel(n: nat, room: nat): nat {
    if room == 0 then 0 else n + 3 + n * (1 + Fuel(n, room - 1)) + n + 4
  }

  function Room(c: Config, len: nat): nat { if len <= |c.nodes| then |c.nodes| - len else 0 }

  /** What relaying to one peer costs. */
  function Hop(c: Config, m: Msg): nat { 1 + Fuel(|c.nodes|, Room(c, |m.path| + 1)) }

  function Body(c: Config, m: Msg): nat { |c.nodes| * Hop(c, m) + |c.nodes| + 4 }

  function Weight(c: Config, pk: Packet): nat {
    match pk
    case Wire(m) => if m.path == [] && m.src != c.source then 1 else Fuel(|c.nodes|, Room(c, |m.path|))
    case Todo(Relay(m, rest, _)) => |rest| * Hop(c, m) + |c.nodes| + 4
    case Todo(AfterUpcall(m, direct)) => |c.nodes| + 2 + if direct then Body(c, m) else 0
    case Todo(EmptySent(m, direct)) => 1 + if direct then Body(c, m) else 0
  }

  ghost function WeightOf(c: Config): Packet -> nat { pk => Weight(c, pk) }

  ghost function Measure(c: Config, s: Sys): nat { Sum(s.bag, WeightOf(c)) }

  lemma Times(a: nat, b: nat, x: nat)
    requires a <= b
    ensures a * x <= b * x
  {
  }

  lemma OneLess(k: nat, x: nat)
    requires k > 0
    ensures k * x == (k - 1) * x + x
  {
  }

  /** An honest message has room left, and one hop less of it afterwards. */
  lemma RoomLeft(c: Config, m: Msg)
    requires Legal(c) && Honest(c, m)
    ensures Room(c, |m.path|) == Room(c, |m.path| + 1) + 1
  {
    if m.path == [] {
      assert c.source in c.nodes;
    } else {
      var p := m.path + [m.src];
      DistinctSize(p);
      assert forall x :: x in p ==> x in c.nodes by { WalkInNodes(c, p); }
      SubsetSize(Elems(p), c.nodes);
    }
  }

  lemma WalkInNodes(c: Config, p: Path)
    requires Legal(c) && SimpleWalk(c.nbrs, Via(c), c.source, p)
    ensures forall x :: x in p ==> x in c.nodes
  {
  }

  /** A message that is not an EMPTY outweighs all that one handling of it can leave. */
  lemma WireOutweighsBody(c: Config, m: Msg)
    requires Legal(c) && Honest(c, m) && !(m.path == [] && m.src != c.source)
    ensures Weight(c, Wire(m)) == |c.nodes| + 3 + Body(c, m)
  {
    RoomLeft(c, m);
  }

  // ----- one handler segment

  ghost function Out(r: Result): multiset<Packet> {
    multiset(set m | m in r.sends :: Wire(m)) + if r.next.Some? then multiset{Todo(r.next.value)} else multiset{}
  }

  lemma OutWeight(c: Config, r: Result)
    ensures Sum(Out(r), WeightOf(c)) == Sum(multiset(set m | m in r.sends :: Wire(m)), WeightOf(c))
      + if r.next.Some? then Weight(c, Todo(r.next.value)) else 0
  {
    hide Sum, Weight;
    var wires := multiset(set m | m in r.sends :: Wire(m));
    if r.next.Some? {
      SumInsert(wires, WeightOf(c), Todo(r.next.value));
    } else {
      assert wires + multiset{} == wires;
    }
  }

  lemma NoSends(c: Config, r: Result)
    requires r.sends == {}
    ensures Sum(Out(r), WeightOf(c)) == if r.next.Some? then Weight(c, Todo(r.next.value)) else 0
  {
    hide Weight;
    OutWeight(c, r);
    assert (set m | m in r.sends :: Wire(m)) == {};
    assert multiset(set m | m in r.sends :: Wire(m)) == multiset{};
  }

  lemma OneSend(c: Config, r: Result, m: Msg)
    requires r.sends == {m}
    ensures Sum(Out(r), WeightOf(c)) == Weight(c, Wire(m)) + if r.next.Some? then Weight(c, Todo(r.next.value)) else 0
  {
    hide Sum, Weight;
    OutWeight(c, r);
    var wires := set m | m in r.sends :: Wire(m);
    assert wires == {Wire(m)};
    assert multiset(wires) == multiset{} + multiset{Wire(m)};
    SumInsert(multiset{}, WeightOf(c), Wire(m));
    EmptySum(c);
  }

  lemma EmptySum(c: Config)
    ensures Sum(multiset{}, WeightOf(c)) == 0
  {
  }

  /** EMPTY messages weigh one each. */
  lemma EmptySends(c: Config, env: Env, source: Node)
    requires env.me != c.source
    ensures var out := set p | p in env.peers && p in env.nbrs :: Msg(env.me, p, source, []);
            Sum(multiset(set m | m in out :: Wire(m)), WeightOf(c)) <= |env.peers|
  {
    hide Sum;
    var out := set p | p in env.peers && p in env.nbrs :: Msg(env.me, p, source, []);
    var wires := set m | m in out :: Wire(m);
    EmptyCount(env.peers, env.nbrs, env.me, source);
    assert wires == set p | p in env.peers && p in env.nbrs :: Wire(Msg(env.me, p, source, []));
    SumBound(wires, WeightOf(c), 1);
  }

  lemma {:induction false} EmptyCount(peers: seq<Node>, nbrs: set<Node>, me: Node, source: Node)
    ensures |set p | p in peers && p in nbrs :: Wire(Msg(me, p, source, []))| <= |peers|
  {
    var all := set p | p in peers && p in nbrs :: Wire(Msg(me, p, source, []));
    if peers != [] {
      var fewer := set p | p in peers[1..] && p in nbrs :: Wire(Msg(me, p, source, []));
      EmptyCount(peers[1..], nbrs, me, source);
      assert all <= fewer + {Wire(Msg(me, peers[0], source, []))};
      SubsetSize(all, fewer + {Wire(Msg(me, peers[0], source, []))});
    } else {
      assert all == {};
    }
  }

  lemma BodyCosts(c: Config, st: State, m: Msg)
    requires Legal(c) && Acquainted(c) && m.dst in c.nodes
    ensures Sum(Out(BodyStep(EnvOf(c, m.dst), st, m)), WeightOf(c)) <= Body(c, m)
  {
    hide Sum, Out, Fuel, Room;
    var r := BodyStep(EnvOf(c, m.dst), st, m);
    NoSends(c, r);
    PeersSize(c, m.dst);
    Times(|PeersOf(c, m.dst)|, |c.nodes|, Hop(c, m));
  }

  lemma EmptyCosts(c: Config, st: State, m: Msg, direct: bool)
    requires Legal(c) && Acquainted(c) && m.dst in c.nodes && m.dst != c.source
    ensures Sum(Out(EmptyStep(EnvOf(c, m.dst), st, m, direct)), WeightOf(c)) <=
              |c.nodes| + 1 + if direct then Body(c, m) else 0
  {
    hide Sum, Out, Body, BodyStep;
    var r := EmptyStep(EnvOf(c, m.dst), st, m, direct);
    if !st.forwardedEmpty {
      OutWeight(c, r);
      EmptySends(c, EnvOf(c, m.dst), m.source);
      PeersSize(c, m.dst);
    } else if direct {
      BodyCosts(c, st, m);
    } else {
      NoSends(c, r);
    }
  }

  lemma ArrivalConsumes(c: Config, st: State, m: Msg)
    requires Legal(c) && Acquainted(c) && Honest(c, m)
    ensures Sum(Out(ArriveStep(EnvOf(c, m.dst), m.dst in c.silent, st, m)), WeightOf(c)) < Weight(c, Wire(m))
  {
    hide Sum, Out, Body, Fuel, Room, SimpleWalk;
    var r := ArriveStep(EnvOf(c, m.dst), m.dst in c.silent, st, m);
    if m.path == [] && m.src != c.source {
      NoSends(c, r);
    } else {
      WireOutweighsBody(c, m);
      NoSends(c, r);
      BodyCosts(c, st, m);
    }
  }

  lemma RelayConsumes(c: Config, st: State, t: Task)
    requires Legal(c) && Acquainted(c) && TaskOk(c, t) && t.Relay?
    ensures Sum(Out(TaskStep(EnvOf(c, t.m.dst), st, t)), WeightOf(c)) < Weight(c, Todo(t))
  {
    hide Sum, Out, Fuel, Room, SimpleWalk, Honest, EmptyStep, Enough;
    var r := TaskStep(EnvOf(c, t.m.dst), st, t);
    AcceptedFacts(c, t.m);
    if t.rest == [] {
      if st.delivered || Enough(EnvOf(c, t.m.dst), st, t.m.source) {
        NoSends(c, r);
      } else {
        EmptyCosts(c, st, t.m, false);
      }
    } else {
      OneLess(|t.rest|, Hop(c, t.m));
      if r.sends == {} {
        NoSends(c, r);
      } else {
        OneSend(c, r, Msg(t.m.dst, t.rest[0], t.m.source, t.m.path + [t.m.src]));
      }
    }
  }

  lemma TaskConsumes(c: Config, st: State, t: Task)
    requires Legal(c) && Acquainted(c) && TaskOk(c, t)
    ensures Sum(Out(TaskStep(EnvOf(c, t.m.dst), st, t)), WeightOf(c)) < Weight(c, Todo(t))
  {
    hide Sum, Out, Body, Honest, EmptyStep, BodyStep, Enough;
    AcceptedFacts(c, t.m);
    match t
    case Relay(_, _, _) => RelayConsumes(c, st, t);
    case AfterUpcall(m, direct) => EmptyCosts(c, st, m, direct);
    case EmptySent(m, direct) =>
      if direct {
        BodyCosts(c, st.(forwardedEmpty := true), m);
      } else {
        NoSends(c, TaskStep(EnvOf(c, t.m.dst), st, t));
      }
  }

  lemma HandlingConsumes(c: Config, st: State, pk: Packet)
    requires Legal(c) && Acquainted(c) && PacketOk(c, pk)
    ensures Sum(Out(Handled(c, st, pk)), WeightOf(c)) < Weight(c, pk)
  {
    hide Sum, Out, Weight, ArriveStep, TaskStep, Honest, TaskOk;
    match pk
    case Wire(m) => ArrivalConsumes(c, st, m);
    case Todo(t) => TaskConsumes(c, st, t);
  }

  /** Every delivery uses up weight. */
  lemma DeliverConsumes(c: Config, s: Sys, pk: Packet)
    requires Legal(c) && Acquainted(c) && Inv(c, s) && pk in s.bag
    ensures Measure(c, Deliver(c, s, pk)) < Measure(c, s)
  {
    hide Sum, Weight, Handled, StateOk, PacketOk;
    var r := Handled(c, StateOf(s, MsgOf(pk).dst), pk);
    HandlingConsumes(c, StateOf(s, MsgOf(pk).dst), pk);
    SumRemove(s.bag, WeightOf(c), pk);
    SumUnion(s.bag - multiset{pk}, Out(r), WeightOf(c));
    assert After(s, pk, r).bag == s.bag - multiset{pk} + Out(r);
  }

  lemma StartWeight(c: Config)
    requires Legal(c) && Acquainted(c)
    ensures Measure(c, Started(c)) <= |c.nodes| * Fuel(|c.nodes|, |c.nodes|)
  {
    hide Sum, Fuel, FirstTargets;
    var out := set q | q in PeersOf(c, c.source) && q in FirstTargets(c) :: Wire(Msg(c.source, q, c.source, []));
    EmptyCount(PeersOf(c, c.source), FirstTargets(c), c.source, c.source);
    PeersSize(c, c.source);
    SumBound(out, WeightOf(c), Fuel(|c.nodes|, |c.nodes|));
    Times(|out|, |c.nodes|, Fuel(|c.nodes|, |c.nodes|));
  }

  /** Termination: no run is longer than the initial weight. */
  lemma {:induction false} BroadcastTerminates(c: Config, run: seq<Sys>)
    requires Legal(c) && Acquainted(c) && Run(c, run)
    ensures |run| - 1 + Measure(c, run[|run| - 1]) <= |c.nodes| * Fuel(|c.nodes|, |c.nodes|)
  {
    hide Inv, Deliver, Started, Measure, Fuel, Legal, Acquainted;
    var n := |run| - 1;
    if n == 0 {
      StartWeight(c);
    } else {
      assert Run(c, run[..n]);
      BroadcastTerminates(c, run[..n]);
      RunKeepsInv(c, run[..n]);
      assert Step(c, run[n - 1], run[n]);
      var pk: Packet :| StepOf(c, run[n - 1], pk, run[n]);
      DeliverConsumes(c, run[n - 1], pk);
    }
  }

  // ----- carrying a run on

  lemma ExtendRun(c: Config, run: seq<Sys>, pk: Packet)
    requires Run(c, run) && pk in run[|run| - 1].bag
    ensures Run(c, run + [Deliver(c, run[|run| - 1], pk)])
  {
    hide Deliver, Started;
    var s' := Deliver(c, run[|run| - 1], pk);
    var longer := run + [s'];
    assert StepOf(c, run[|run| - 1], pk, s');
    forall i | 0 <= i < |longer| - 1
      ensures Step(c, longer[i], longer[i + 1])
    {
      if i < |run| - 1 {
        assert Step(c, run[i], run[i + 1]);
      }
    }
  }

  lemma RunIsNonempty(c: Config, run: seq<Sys>)
    requires Run(c, run)
    ensures run != []
  {
  }

  ghost predicate AtRest(c: Config, run: seq<Sys>) {
    Run(c, run) && run[|run| - 1].bag == multiset{}
  }

  /** Any run can be carried on until all is delivered. */
  lemma {:induction false} ExtendToRest(c: Config, run: seq<Sys>) returns (longer: seq<Sys>)
    requires Legal(c) && Acquainted(c) && Run(c, run)
    ensures AtRest(c, longer) && |longer| >= |run| && longer[..|run|] == run
    decreases Measure(c, run[|run| - 1])
  {
    hide Inv, Deliver, Measure, Run, Legal, Acquainted;
    assert run != [] by { RunIsNonempty(c, run); }
    var s := run[|run| - 1];
    if s.bag == multiset{} {
      longer := run;
    } else {
      var pk :| pk in s.bag;
      RunKeepsInv(c, run);
      DeliverConsumes(c, s, pk);
      ExtendRun(c, run, pk);
      longer := ExtendToRest(c, run + [Deliver(c, s, pk)]);
      assert longer[..|run|] == longer[..|run| + 1][..|run|] == run;
    }
  }
}
