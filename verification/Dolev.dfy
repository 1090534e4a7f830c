/** One process of the optimized Dolev protocol: direct delivery from the source, EMPTY messages
    after delivery, and connectivity instead of the greedy search. Handlers are cut at every
    point where they wait. */
module Dolev {
  import opened Base
  import opened Ordering
  import opened Topology
  import opened DisjointSearch

  /** |peers| in the order in which the process walks them. */
  datatype Env = Env(me: Node, peers: seq<Node>, nbrs: set<Node>, f: nat)

  /** What a process keeps for one message id; |informed| are the neighbours known to have
      delivered, absent until the first one is noted. */
  datatype State = State(paths: seq<Path>, delivered: bool, forwardedEmpty: bool, informed: Option<set<Node>>)

  const IDLE := State([], false, false, None)

  datatype Msg = Msg(src: Node, dst: Node, source: Node, path: Path)

  /** The rest of a suspended handler: after the upcall, after sending EMPTY round, or in the
      middle of relaying with |rest| of the peers still to be considered. |live|: the relaying
      loop sees neighbours noted meanwhile. */
  datatype Task = AfterUpcall(m: Msg, direct: bool)
                | EmptySent(m: Msg, direct: bool)
                | Relay(m: Msg, rest: seq<Node>, live: bool)

  datatype Result = Result(state: State, sends: set<Msg>, next: Option<Task>, upcall: bool)

  function Stop(st: State): Result { Result(st, {}, None, false) }

  function Informed(st: State): set<Node> {
    if st.informed.Some? then st.informed.value else {}
  }

  function Note(st: State, p: Node): State { st.(informed := Some(Informed(st) + {p})) }

  /** The library's answer for the recorded paths: f+1 disjoint ones exist in their union. */
  ghost predicate Enough(env: Env, st: State, source: Node) {
    st.paths != [] && DisjointPaths(UnionGraph(st.paths, source, env.me), source, env.me, env.f + 1)
  }

  /** From the EMPTY test (ND3) to the first relay. */
  function BodyStep(env: Env, st: State, m: Msg): Result {
    var longer := m.path + [m.src];
    if m.path == [] && m.src != m.source then Stop(Note(st, m.src))
    else if m.src in Informed(st) && m.src in m.path then Stop(st)
    else Result(if longer in st.paths then st else st.(paths := st.paths + [longer]),
                {}, Some(Relay(m, env.peers, st.informed.Some?)), false)
  }

  /** Sends EMPTY to all neighbours unless that was done (MD2). */
  function EmptyStep(env: Env, st: State, m: Msg, direct: bool): Result {
    if !st.forwardedEmpty then
      Result(Note(st, env.me),
             set p | p in env.peers && p in env.nbrs :: Msg(env.me, p, m.source, []),
             Some(EmptySent(m, direct)), false)
    else if direct then BodyStep(env, st, m)
    else Stop(st)
  }

  ghost function DeliverStep(env: Env, st: State, m: Msg): Result {
    if st.delivered then Stop(st)
    else if Enough(env, st, m.source) then
      Result(Note(st.(delivered := true), env.me), {}, Some(AfterUpcall(m, false)), true)
    else EmptyStep(env, st, m, false)
  }

  function ArriveStep(env: Env, silent: bool, st: State, m: Msg): Result {
    if silent || m.src !in env.nbrs || (st.delivered && st.forwardedEmpty) then Stop(st)
    else if m.src == m.source && !st.delivered then
      Result(st.(delivered := true), {}, Some(AfterUpcall(m, true)), true)
    else BodyStep(env, st, m)
  }

  predicate Wanted(env: Env, st: State, m: Msg, p: Node, live: bool) {
    p in env.nbrs && p !in m.path + [m.src] && !(live && p in Informed(st))
  }

  ghost function TaskStep(env: Env, st: State, t: Task): Result {
    match t
    case AfterUpcall(m, direct) => EmptyStep(env, st, m, direct)
    case EmptySent(m, direct) =>
      var done := st.(forwardedEmpty := true);
      if direct then BodyStep(env, done, m) else Stop(done)
    case Relay(m, rest, live) =>
      if rest == [] then DeliverStep(env, st, m)
      else Result(st,
                  if Wanted(env, st, m, rest[0], live) then {Msg(env.me, rest[0], m.source, m.path + [m.src])} else {},
                  Some(Relay(m, rest[1..], live)), false)
  }

  /** |k| is the local node connectivity between |s| and |t|. */
  ghost predicate IsConnectivity(g: Graph, s: Node, t: Node, k: nat) {
    forall n: nat :: DisjointPaths(g, s, t, n) <==> n <= k
  }

  /** A process as one message id sees it. */
  class DolevSlot {
    const me: Node
    const peers: seq<Node>
    const nbrs: set<Node>
    const f: nat
    const silent: bool
    var paths: seq<Path>
    var delivered: bool
    var forwardedEmpty: bool
    var informed: Option<set<Node>>

    function Here(): Env { Env(me, peers, nbrs, f) }

    function View(): State reads this { State(paths, delivered, forwardedEmpty, informed) }

    constructor (me: Node, peers: seq<Node>, nbrs: set<Node>, f: nat, silent: bool)
      ensures View() == IDLE && Here() == Env(me, peers, nbrs, f) && this.silent == silent
    {
      this.me, this.peers, this.nbrs, this.f, this.silent := me, peers, nbrs, f, silent;
      paths, delivered, forwardedEmpty, informed := [], false, false, None;
    }

    method NoteInformed(p: Node)
      modifies this
      ensures View() == Note(old(View()), p)
    {
      var known: set<Node> := if informed.Some? then informed.value else {};
      informed := Some(known + {p});
    }

    method OnArrival(m: Msg) returns (next: Option<Task>, upcall: bool)
      modifies this
      ensures Result(View(), {}, next, upcall) == ArriveStep(Here(), silent, old(View()), m)
    {
      next, upcall := None, false;
      if silent || m.src !in nbrs {
        return;
      }
      if delivered && forwardedEmpty {
        return;
      }
      if m.src == m.source && !delivered {
        delivered := true;
        return Some(AfterUpcall(m, true)), true;
      }
      next := OnBody(m);
    }

    method OnBody(m: Msg) returns (next: Option<Task>)
      modifies this
      ensures Result(View(), {}, next, false) == BodyStep(Here(), old(View()), m)
    {
      next := None;
      if m.path == [] && m.src != m.source {
        NoteInformed(m.src);
        return;
      }
      if m.src in Informed(View()) && m.src in m.path {
        return;
      }
      next := Some(Relay(m, peers, informed.Some?));
      if m.path + [m.src] !in paths {
        paths := paths + [m.path + [m.src]];
      }
    }

    method OnEmptyForward(m: Msg, direct: bool) returns (sends: set<Msg>, next: Option<Task>)
      modifies this
      ensures Result(View(), sends, next, false) == EmptyStep(Here(), old(View()), m, direct)
    {
      sends, next := {}, None;
      if !forwardedEmpty {
        NoteInformed(me);
        for i := 0 to |peers|
          invariant sends == set p | p in peers[..i] && p in nbrs :: Msg(me, p, m.source, [])
          invariant View() == Note(old(View()), me)
        {
          assert peers[..i + 1] == peers[..i] + [peers[i]];
          if peers[i] in nbrs {
            sends := sends + {Msg(me, peers[i], m.source, [])};
          }
        }
        assert peers[..|peers|] == peers;
        next := Some(EmptySent(m, direct));
      } else if direct {
        next := OnBody(m);
      }
    }

    method OnEmptySent(m: Msg, direct: bool) returns (next: Option<Task>)
      modifies this
      ensures Result(View(), {}, next, false) == TaskStep(Here(), old(View()), EmptySent(m, direct))
    {
      forwardedEmpty := true;
      next := None;
      if direct {
        next := OnBody(m);
      }
    }

    /** The graph spanned by the recorded paths, edge by edge. */
    method BuildGraph(source: Node) returns (g: Graph)
      ensures g == UnionGraph(paths, source, me)
    {
      g := {};
      for i := 0 to |paths|
        invariant g == UnionGraph(paths[..i], source, me)
      {
        var full := FullPath(paths[i], source, me);
        for j := 0 to |full| - 1
          invariant g == UnionGraph(paths[..i], source, me) + WalkEdges(full[..j + 1])
        {
          assert full[..j + 2][..j + 1] == full[..j + 1];
          g := g + {Edge(full[j], full[j + 1])};
        }
        assert full[..|full|] == full && paths[..i + 1][..i] == paths[..i];
      }
      assert paths[..|paths|] == paths;
    }

    /** |connectivity| stands for what the graph library computes. */
    method OnDeliver(m: Msg, connectivity: nat) returns (sends: set<Msg>, next: Option<Task>, upcall: bool)
      requires IsConnectivity(UnionGraph(paths, m.source, me), m.source, me, connectivity)
      modifies this
      ensures Result(View(), sends, next, upcall) == DeliverStep(Here(), old(View()), m)
    {
      sends, next, upcall := {}, None, false;
      if delivered {
        return;
      }
      if paths != [] && connectivity >= f + 1 {
        delivered := true;
        NoteInformed(me);
        return {}, Some(AfterUpcall(m, false)), true;
      }
      sends, next := OnEmptyForward(m, false);
    }
  }
}
