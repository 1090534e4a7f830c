/** One process of the naive Dolev flood, and its greedy search for disjoint paths. */
module DolevNaive {
  import opened Base
  import opened Ordering
  import opened Topology

  datatype Env = Env(me: Node, peers: set<Node>, nbrs: set<Node>, f: nat)

  /** What a process keeps for one message id. */
  datatype State = State(paths: seq<Path>, delivered: bool)

  const IDLE := State([], false)

  // ----- the greedy search

  /** The processes a recorded path owes its message to, besides its claimed source. */
  function Internal(path: Path, source: Node, me: Node): set<Node> {
    Elems(path) - {source} - {me}
  }

  predicate Clashes(paths: seq<Path>, picks: seq<nat>, path: Path, source: Node, me: Node)
    requires forall k :: 0 <= k < |picks| ==> picks[k] < |paths|
  {
    exists k :: 0 <= k < |picks| && Internal(paths[picks[k]], source, me) * Internal(path, source, me) != {}
  }

  /** Positions of the paths a first-come search keeps: each that avoids all kept before it. */
  function Picks(paths: seq<Path>, source: Node, me: Node): (picks: seq<nat>)
    ensures forall k :: 0 <= k < |picks| ==> picks[k] < |paths|
  {
    if paths == [] then []
    else
      var n := |paths| - 1;
      var before := Picks(paths[..n], source, me);
      if Clashes(paths[..n], before, paths[n], source, me) then before else before + [n]
  }

  predicate Accepts(paths: seq<Path>, source: Node, me: Node, f: nat) {
    |Picks(paths, source, me)| >= f + 1
  }

  /** Paths recorded later never withdraw a pick, so acceptance is permanent. */
  lemma {:induction false} PicksGrow(paths: seq<Path>, i: nat, source: Node, me: Node)
    requires i <= |paths|
    ensures Picks(paths[..i], source, me) <= Picks(paths, source, me)
    decreases |paths|
  {
    var n := |paths| - 1;
    if i < |paths| {
      assert paths[..n][..i] == paths[..i];
      PicksGrow(paths[..n], i, source, me);
    } else {
      assert paths[..i] == paths;
    }
  }

  /** The picked paths have pairwise disjoint internal processes. */
  lemma {:induction false} PicksDisjoint(paths: seq<Path>, source: Node, me: Node, a: nat, b: nat)
    requires a < b < |Picks(paths, source, me)|
    ensures var picks := Picks(paths, source, me);
            picks[a] < picks[b] && Internal(paths[picks[a]], source, me) !! Internal(paths[picks[b]], source, me)
    decreases |paths|
  {
    var n := |paths| - 1;
    var before := Picks(paths[..n], source, me);
    if b < |before| {
      PicksDisjoint(paths[..n], source, me, a, b);
    }
  }

  // ----- the handlers

  datatype FloodOutcome = Ignored | Recorded(state: State, path: Path, targets: set<Node>)

  /** A flooded message arrives from |src|; afterwards delivery is checked. */
  function FloodStep(env: Env, st: State, src: Node, path: Path): FloodOutcome {
    var longer := path + [src];
    if src !in env.nbrs then Ignored
    else Recorded(
      if longer in st.paths then st else st.(paths := st.paths + [longer]),
      longer, env.peers * env.nbrs - Elems(longer))
  }

  function CheckStep(env: Env, st: State, source: Node): (r: (State, bool)) {
    if !st.delivered && Accepts(st.paths, source, env.me, env.f) then (st.(delivered := true), true)
    else (st, false)
  }

  /** A process as one message id sees it. */
  class DolevNaiveSlot {
    const me: Node
    const peers: set<Node>
    const nbrs: set<Node>
    const f: nat
    var paths: seq<Path>
    var delivered: bool

    function Here(): Env { Env(me, peers, nbrs, f) }

    function View(): State reads this { State(paths, delivered) }

    constructor (me: Node, peers: set<Node>, nbrs: set<Node>, f: nat)
      ensures View() == IDLE && Here() == Env(me, peers, nbrs, f)
    {
      this.me, this.peers, this.nbrs, this.f := me, peers, nbrs, f;
      paths, delivered := [], false;
    }

    /** Records the path and answers whom to forward it to. */
    method OnFlood(src: Node, path: Path) returns (accepted: bool, longer: Path, targets: set<Node>)
      modifies this
      ensures match FloodStep(Here(), old(View()), src, path)
              case Ignored => !accepted && View() == old(View())
              case Recorded(st, p, ts) => accepted && View() == st && longer == p && targets == ts
    {
      accepted, longer, targets := false, path + [src], {};
      if src !in nbrs {
        return;
      }
      accepted := true;
      if longer !in paths {
        paths := paths + [longer];
      }
      var rest := peers;
      while rest != {}
        invariant rest <= peers
        invariant targets == (peers - rest) * nbrs - Elems(longer)
        decreases |rest|
      {
        var pid :| pid in rest;
        rest := rest - {pid};
        if pid in nbrs && pid !in longer {
          targets := targets + {pid};
        }
      }
    }

    method MyDeliver(source: Node) returns (upcall: bool)
      modifies this
      ensures (View(), upcall) == CheckStep(Here(), old(View()), source)
    {
      upcall := false;
      if delivered {
        return;
      }
      var enough := DistPaths(source);
      if enough {
        delivered := true;
        upcall := true;
      }
    }

    method DistPaths(source: Node) returns (enough: bool)
      ensures enough == Accepts(paths, source, me, f)
    {
      var needed := f + 1;
      var chosen: seq<set<Node>> := [];
      for i := 0 to |paths|
        invariant |chosen| == |Picks(paths[..i], source, me)| < needed
        invariant forall k :: 0 <= k < |chosen| ==>
                    chosen[k] == Internal(paths[Picks(paths[..i], source, me)[k]], source, me)
      {
        var internal := Internal(paths[i], source, me);
        assert paths[..i + 1][..i] == paths[..i] && paths[..i + 1][i] == paths[i];
        if exists k :: 0 <= k < |chosen| && chosen[k] * internal != {} {
          assert Clashes(paths[..i], Picks(paths[..i], source, me), paths[i], source, me);
          continue;
        }
        chosen := chosen + [internal];
        if |chosen| >= needed {
          PicksGrow(paths, i + 1, source, me);
          return true;
        }
      }
      assert paths[..|paths|] == paths;
      return false;
    }
  }
}
