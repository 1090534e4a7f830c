/** The optimized Dolev broadcast with a fault budget of zero: it reaches exactly the processes to
    which a trail of participating processes leads. */
module DolevZeroBudget {
  import opened Base
  import opened Ordering
  import opened Topology
  import opened DisjointSearch
  import opened Dolev
  import opened DolevEvidence
  import opened DolevSpread
  import opened DolevVerdict
  import opened DolevTermination
  import opened DolevCutoff

  /** A path that begins with a first-hand step and ends at a process that takes part. */
  predicate LiveTrail(c: Config, p: Path, v: Node) {
    v !in c.silent && Genuine(c, p, v) && FirstHand(c, (p + [v])[1])
  }

  predicate Has(s: Sys, v: Node) { StateOf(s, v).paths != [] }

  /** |v| has got something: a delivery or a path. */
  predicate Got(st: State) { st.delivered || st.paths != [] }

  // ----- traces that messages leave

  /** Who sent EMPTY has got something; who passed a path on has recorded one. */
  predicate Traced(c: Config, s: Sys, m: Msg) {
    if m.path == [] then m.src == c.source || Got(StateOf(s, m.src))
    else (forall x :: x in m.path + [m.src] && x != c.source ==> Has(s, x)) && FirstHand(c, (m.path + [m.src])[1])
  }

  /** A message that was accepted. */
  predicate TaskTraced(c: Config, s: Sys, t: Task) {
    && Traced(c, s, t.m) && (t.m.path == [] && t.m.src == c.source ==> FirstHand(c, t.m.dst))
    && t.m.dst !in c.silent && (Reopens(t) ==> t.m.src == c.source)
    && (if t.Relay? then Has(s, t.m.dst)
        else if t.AfterUpcall? then StateOf(s, t.m.dst).delivered else Got(StateOf(s, t.m.dst)))
  }

  predicate PathTraced(c: Config, s: Sys, p: Path, v: Node) {
    v !in c.silent && p != [] && (forall x :: x in p && x != c.source ==> Has(s, x)) && FirstHand(c, (p + [v])[1])
  }

  ghost predicate Recording(s: Sys, v: Node) {
    exists t :: Todo(t) in s.bag && t.m.dst == v && Reopens(t)
  }

  ghost predicate StateTraced(c: Config, s: Sys, v: Node) {
    && (forall w :: w in Informed(StateOf(s, v)) && w != v ==> Got(StateOf(s, w)))
    && (forall p :: p in StateOf(s, v).paths ==> PathTraced(c, s, p, v))
    && (StateOf(s, v).delivered ==> Has(s, v) || Recording(s, v))
  }

  ghost predicate Traces(c: Config, s: Sys) {
    && (forall m :: Wire(m) in s.bag ==> Traced(c, s, m))
    && (forall t :: Todo(t) in s.bag ==> TaskTraced(c, s, t))
    && (forall v :: v in c.nodes && v != c.source ==> StateTraced(c, s, v))
  }

  /** Nobody loses anything. */
  ghost predicate Later(s: Sys, s': Sys) {
    forall v :: Keeps(StateOf(s, v), StateOf(s', v))
  }

  lemma KeepsGot(st: State, st': State)
    requires Keeps(st, st')
    ensures Got(st) ==> Got(st')
    ensures st.paths != [] ==> st'.paths != []
  {
    if st.paths != [] {
      assert st.paths[0] in st'.paths;
    }
  }

  lemma TracedLater(c: Config, s: Sys, s': Sys)
    requires Later(s, s')
    ensures forall m :: Traced(c, s, m) ==> Traced(c, s', m)
    ensures forall t :: TaskTraced(c, s, t) ==> TaskTraced(c, s', t)
    ensures forall p, v :: PathTraced(c, s, p, v) ==> PathTraced(c, s', p, v)
  {
    hide StateOf, FirstHand, Keeps, Got;
    forall v
      ensures Got(StateOf(s, v)) ==> Got(StateOf(s', v))
      ensures Has(s, v) ==> Has(s', v)
      ensures StateOf(s, v).delivered ==> StateOf(s', v).delivered
    {
      KeepsGot(StateOf(s, v), StateOf(s', v));
      KeepsDelivered(StateOf(s, v), StateOf(s', v));
    }
  }

  lemma KeepsDelivered(st: State, st': State)
    requires Keeps(st, st')
    ensures st.delivered ==> st'.delivered
  {
  }

  // ----- one handler segment

  /** What a segment may suspend, and when. */
  lemma NextTraced(c: Config, st: State, pk: Packet)
    requires PacketOk(c, pk)
    requires pk.Todo? && pk.t.Relay? ==> st.paths != []
    requires pk.Todo? && pk.t.AfterUpcall? ==> st.delivered
    requires pk.Todo? && pk.t.EmptySent? ==> Got(st)
    requires pk.Todo? && Reopens(pk.t) ==> pk.t.m.src == c.source
    ensures var r := Handled(c, st, pk);
            r.next.Some? ==>
              && MsgOf(pk).dst !in c.silent && (pk.Wire? ==> pk.m.src in NbrsOf(c.nbrs, pk.m.dst))
              && (Reopens(r.next.value) ==> MsgOf(pk).src == c.source)
              && (if r.next.value.Relay? then r.state.paths != []
                  else if r.next.value.AfterUpcall? then r.state.delivered else Got(r.state))
  {
    hide Enough, SimpleWalk;
  }

  predicate SendTraced(st: State, m: Msg, x: Msg) {
    x.src == m.dst && if x.path == [] then Got(st) else st.paths != [] && x.path == m.path + [m.src]
  }

  /** What it sends: EMPTY by one who has got something, or the longer path. */
  lemma SendsTraced(c: Config, st: State, pk: Packet)
    requires pk.Todo? && pk.t.Relay? ==> st.paths != []
    requires pk.Todo? && pk.t.AfterUpcall? ==> st.delivered
    requires pk.Todo? && pk.t.EmptySent? ==> Got(st)
    ensures var r := Handled(c, st, pk);
            forall m :: m in r.sends ==> SendTraced(r.state, MsgOf(pk), m)
  {
    hide Enough;
  }

  /** What it notes and records. */
  lemma StateAfter(c: Config, st: State, pk: Packet)
    requires PacketOk(c, pk)
    ensures var r, m := Handled(c, st, pk), MsgOf(pk);
            && (forall w :: w in Informed(r.state) && w !in Informed(st) ==>
                  w == m.dst || (w == m.src && m.path == [] && m.src != c.source))
            && (forall p :: p in r.state.paths && p !in st.paths ==>
                  p == m.path + [m.src] && (m.path == [] ==> m.src == c.source)
                  && m.dst !in c.silent && (pk.Wire? ==> m.src in NbrsOf(c.nbrs, m.dst)))
  {
    hide Enough, SimpleWalk;
  }

  /** A delivery leaves a path behind, or the rest of the handler that will. */
  lemma DeliveryRecords(c: Config, st: State, pk: Packet)
    requires PacketOk(c, pk)
    requires pk.Todo? && Reopens(pk.t) ==> pk.t.m.src == c.source
    ensures var r := Handled(c, st, pk);
            r.state.delivered && (!st.delivered || (pk.Todo? && Reopens(pk.t))) ==>
              r.state.paths != [] || (r.next.Some? && Reopens(r.next.value))
  {
    hide SimpleWalk, DisjointPaths, UnionGraph;
  }

  // ----- one step

  /** What is known of the message being handled. */
  lemma Known(c: Config, s: Sys, pk: Packet)
    requires Inv(c, s) && FromSource(c, s) && Traces(c, s) && pk in s.bag
    ensures PacketOk(c, pk) && Traced(c, s, MsgOf(pk)) && (pk.Todo? ==> TaskTraced(c, s, pk.t))
    ensures pk.Wire? && pk.m.src == c.source && pk.m.dst !in c.silent && c.source in NbrsOf(c.nbrs, pk.m.dst)
      ==> FirstHand(c, pk.m.dst)
  {
    hide StateOf, StateOk, StateTraced, FirstTargets, Traced, Reopens, SimpleWalk;
    InInv(c, s, pk);
    PacketDst(c, pk);
  }

  lemma StepKeeps(c: Config, s: Sys, pk: Packet)
    requires pk in s.bag
    ensures Later(s, Deliver(c, s, pk))
  {
    hide StateOf, Keeps, Handled, After;
    var st := StateOf(s, MsgOf(pk).dst);
    AfterFacts(s, pk, Handled(c, st, pk), Deliver(c, s, pk));
    HandledKeeps(c, st, pk);
    forall v
      ensures Keeps(StateOf(s, v), StateOf(s, v))
    {
      KeepsItself(StateOf(s, v));
    }
  }

  lemma KeepsItself(st: State)
    ensures Keeps(st, st)
  {
  }

  /** The longer path of a traced message is traced. */
  lemma LongerTraced(c: Config, s: Sys, s': Sys, m: Msg)
    requires Traced(c, s, m) && Later(s, s') && (m.path == [] ==> m.src == c.source && FirstHand(c, m.dst))
    ensures forall x :: x in m.path + [m.src] && x != c.source ==> Has(s', x)
    ensures FirstHand(c, (m.path + [m.src] + [m.dst])[1])
  {
    hide StateOf, FirstHand, Keeps, Got;
    TracedLater(c, s, s');
    assert Traced(c, s', m);
    if m.path != [] {
      assert (m.path + [m.src] + [m.dst])[1] == (m.path + [m.src])[1];
    }
  }

  lemma WireTracedAfter(c: Config, s: Sys, pk: Packet, x: Msg)
    requires Inv(c, s) && FromSource(c, s) && Traces(c, s) && pk in s.bag && Wire(x) in Deliver(c, s, pk).bag
    ensures Traced(c, Deliver(c, s, pk), x)
  {
    hide Inv, FromSource, StateTraced, StateOf, FirstHand, Handled, After, Got, Reopens, Honest, SimpleWalk;
    var st, s' := StateOf(s, MsgOf(pk).dst), Deliver(c, s, pk);
    var r, m := Handled(c, st, pk), MsgOf(pk);
    AfterFacts(s, pk, r, s');
    StepKeeps(c, s, pk);
    TracedLater(c, s, s');
    if Wire(x) !in s.bag {
      Known(c, s, pk);
      SendsTraced(c, st, pk);
      SendsAreMine(c, st, pk);
      assert SendTraced(r.state, m, x);
      if x.path != [] {
        RelaySends(c, st, pk, x);
        LongerTraced(c, s, s', m);
      }
    }
  }

  lemma RelaySends(c: Config, st: State, pk: Packet, x: Msg)
    requires PacketOk(c, pk) && x in Handled(c, st, pk).sends && x.path != []
    ensures pk.Todo? && pk.t.Relay? && (pk.t.m.path != [] || pk.t.m.src == c.source)
  {
    hide Enough, SimpleWalk;
  }

  lemma TaskTracedAfter(c: Config, s: Sys, pk: Packet, t: Task)
    requires Inv(c, s) && FromSource(c, s) && Traces(c, s) && pk in s.bag && Todo(t) in Deliver(c, s, pk).bag
    ensures TaskTraced(c, Deliver(c, s, pk), t)
  {
    hide Inv, FromSource, StateTraced, StateOf, FirstHand, Handled, After, Got, Reopens, PacketOk, Traced;
    var st, s' := StateOf(s, MsgOf(pk).dst), Deliver(c, s, pk);
    var r := Handled(c, st, pk);
    AfterFacts(s, pk, r, s');
    StepKeeps(c, s, pk);
    TracedLater(c, s, s');
    Known(c, s, pk);
    if Todo(t) !in s.bag {
      NextTraced(c, st, pk);
      NextKeepsDst(c, st, pk);
    }
  }

  lemma PathTracedAfter(c: Config, s: Sys, pk: Packet, v: Node, p: Path)
    requires Inv(c, s) && FromSource(c, s) && Traces(c, s) && pk in s.bag && v in c.nodes && v != c.source
    requires p in StateOf(Deliver(c, s, pk), v).paths
    ensures PathTraced(c, Deliver(c, s, pk), p, v)
  {
    hide Inv, FromSource, StateOf, FirstHand, Handled, After, Got, Reopens, PacketOk, Traced;
    var st, s' := StateOf(s, MsgOf(pk).dst), Deliver(c, s, pk);
    AfterFacts(s, pk, Handled(c, st, pk), s');
    StepKeeps(c, s, pk);
    TracedLater(c, s, s');
    Known(c, s, pk);
    assert StateTraced(c, s, v);
    if p !in StateOf(s, v).paths {
      StateAfter(c, st, pk);
      LongerTraced(c, s, s', MsgOf(pk));
    }
  }

  lemma NoteTracedAfter(c: Config, s: Sys, pk: Packet, v: Node, w: Node)
    requires Inv(c, s) && FromSource(c, s) && Traces(c, s) && pk in s.bag && v in c.nodes && v != c.source
    requires w in Informed(StateOf(Deliver(c, s, pk), v)) && w != v
    ensures Got(StateOf(Deliver(c, s, pk), w))
  {
    hide Inv, FromSource, StateOf, FirstHand, Handled, After, Got, Reopens, PacketOk, Informed, Keeps;
    var st, s' := StateOf(s, MsgOf(pk).dst), Deliver(c, s, pk);
    AfterFacts(s, pk, Handled(c, st, pk), s');
    StepKeeps(c, s, pk);
    Known(c, s, pk);
    assert StateTraced(c, s, v);
    KeepsGot(StateOf(s, w), StateOf(s', w));
    if w !in Informed(StateOf(s, v)) {
      StateAfter(c, st, pk);
    }
  }

  lemma DeliveryTracedAfter(c: Config, s: Sys, pk: Packet, v: Node)
    requires Inv(c, s) && FromSource(c, s) && Traces(c, s) && pk in s.bag && v in c.nodes && v != c.source
    requires StateOf(Deliver(c, s, pk), v).delivered
    ensures Has(Deliver(c, s, pk), v) || Recording(Deliver(c, s, pk), v)
  {
    hide Inv, FromSource, StateOf, FirstHand, Handled, After, Got, Reopens, PacketOk, Informed, Keeps, PathTraced;
    var st, s' := StateOf(s, MsgOf(pk).dst), Deliver(c, s, pk);
    var r := Handled(c, st, pk);
    AfterFacts(s, pk, r, s');
    AfterGives(s, pk, r);
    AfterKeeps(s, pk, r);
    StepKeeps(c, s, pk);
    Known(c, s, pk);
    assert StateTraced(c, s, v);
    KeepsGot(StateOf(s, v), StateOf(s', v));
    DeliveryRecords(c, st, pk);
    NextKeepsDst(c, st, pk);
    if StateOf(s, v).delivered && !Has(s, v) {
      var t :| Todo(t) in s.bag && t.m.dst == v && Reopens(t);
      assert pk != Todo(t) ==> Todo(t) in s'.bag;
    }
  }

  lemma TracesAfter(c: Config, s: Sys, pk: Packet)
    requires Inv(c, s) && FromSource(c, s) && Traces(c, s) && pk in s.bag
    ensures Traces(c, Deliver(c, s, pk))
  {
    hide Inv, FromSource, StateOf, FirstHand, Deliver, Got, Traced, TaskTraced, PathTraced, Recording, Informed, Has;
    var s' := Deliver(c, s, pk);
    forall m | Wire(m) in s'.bag
      ensures Traced(c, s', m)
    {
      WireTracedAfter(c, s, pk, m);
    }
    forall t | Todo(t) in s'.bag
      ensures TaskTraced(c, s', t)
    {
      TaskTracedAfter(c, s, pk, t);
    }
    forall v | v in c.nodes && v != c.source
      ensures StateTraced(c, s', v)
    {
      StateTracedAfter(c, s, pk, v);
    }
  }

  lemma StateTracedAfter(c: Config, s: Sys, pk: Packet, v: Node)
    requires Inv(c, s) && FromSource(c, s) && Traces(c, s) && pk in s.bag && v in c.nodes && v != c.source
    ensures StateTraced(c, Deliver(c, s, pk), v)
  {
    hide Inv, FromSource, Traces, StateOf, FirstHand, Deliver, Got, PathTraced, Recording, Informed, Has;
    var s' := Deliver(c, s, pk);
    forall w | w in Informed(StateOf(s', v)) && w != v
      ensures Got(StateOf(s', w))
    {
      NoteTracedAfter(c, s, pk, v, w);
    }
    forall p | p in StateOf(s', v).paths
      ensures PathTraced(c, s', p, v)
    {
      PathTracedAfter(c, s, pk, v, p);
    }
    if StateOf(s', v).delivered {
      DeliveryTracedAfter(c, s, pk, v);
    }
  }

  lemma TracesStarted(c: Config)
    ensures Traces(c, Started(c))
  {
    hide FirstTargets;
  }

  lemma {:induction false} RunKeepsTraces(c: Config, run: seq<Sys>)
    requires Legal(c) && Run(c, run)
    ensures Traces(c, run[|run| - 1])
  {
    hide Inv, VerdictInv, Traces, Deliver, Started, FromSource;
    var n := |run| - 1;
    if n == 0 {
      TracesStarted(c);
    } else {
      assert Run(c, run[..n]);
      RunKeepsTraces(c, run[..n]);
      RunKeepsInv(c, run[..n]);
      RunKeepsVerdict(c, run[..n]);
      VerdictHasSource(c, run[n - 1]);
      assert Step(c, run[n - 1], run[n]);
      var pk: Packet :| StepOf(c, run[n - 1], pk, run[n]);
      TracesAfter(c, run[n - 1], pk);
    }
  }

  lemma VerdictHasSource(c: Config, s: Sys)
    requires VerdictInv(c, s)
    ensures FromSource(c, s)
  {
  }

  // ----- at rest

  lemma OnePathPasses(c: Config, st: State, v: Node)
    requires c.f == 0 && st.paths != [] && forall p :: p in st.paths ==> Genuine(c, p, v)
    ensures Enough(EnvOf(c, v), st, c.source)
  {
    hide UnionGraph, IsPath, Genuine;
    var p, g := st.paths[0], UnionGraph(st.paths, c.source, v);
    GenuineIsWellShaped(c, p, v);
    UnionHas(st.paths, c.source, v, 0);
    WalkIsPath(p, c.source, v, g);
    var ps := [Walk(p, c.source, v)];
    assert AreDisjoint(g, c.source, v, ps);
  }

  lemma GenuineIsWellShaped(c: Config, p: Path, v: Node)
    requires Genuine(c, p, v)
    ensures WellShaped(p, c.source, v)
  {
    assert p[0] in p;
  }

  /** At rest whoever has got something has delivered. */
  lemma GotIsDelivered(c: Config, run: seq<Sys>, v: Node)
    requires Legal(c) && c.f == 0 && AtRest(c, run) && v in c.nodes && v != c.source && Got(StateOf(run[|run| - 1], v))
    ensures StateOf(run[|run| - 1], v).delivered
  {
    hide Step, StateOf, Enough, Genuine, FirstHand, Evidence, PacketOk;
    var s := run[|run| - 1];
    if StateOf(s, v).paths != [] {
      RunKeepsInv(c, run);
      assert StateOk(c, StateOf(s, v), v);
      OnePathPasses(c, StateOf(s, v), v);
      DeliveredExactly(c, run, v);
    }
  }

  /** At rest whoever has delivered has recorded a path. */
  lemma DeliveredHasPath(c: Config, run: seq<Sys>, v: Node)
    requires Legal(c) && AtRest(c, run) && v in c.nodes && v != c.source && StateOf(run[|run| - 1], v).delivered
    ensures Has(run[|run| - 1], v)
  {
    hide Step, StateOf, Informed, PathTraced;
    RunKeepsTraces(c, run);
    assert StateTraced(c, run[|run| - 1], v);
  }

  /** Delivery goes on along a link between processes that take part. */
  lemma DeliveryPassesOn(c: Config, run: seq<Sys>, u: Node, w: Node)
    requires Legal(c) && Acquainted(c) && c.f == 0 && AtRest(c, run) && u in c.nodes && u != c.source
    requires w in c.nodes && w != c.source && w !in c.silent && Link(c.nbrs, u, w)
    requires StateOf(run[|run| - 1], u).delivered
    ensures StateOf(run[|run| - 1], w).delivered
  {
    hide Step, StateOf, Informed;
    var s := run[|run| - 1];
    DeliveredHasPath(c, run, u);
    var q := StateOf(s, u).paths[0];
    RunKeepsTraces(c, run);
    assert StateTraced(c, s, u) && PathTraced(c, s, q, u);
    if w !in q {
      assert w in Elems(PeersOf(c, u));
      PathsArePassedOn(c, run, u, w, q);
    }
    if !StateOf(s, w).delivered {
      GotIsDelivered(c, run, w);
    }
  }

  lemma {:induction false} TrailDelivers(c: Config, run: seq<Sys>, p: Path, v: Node)
    requires Legal(c) && Acquainted(c) && c.f == 0 && AtRest(c, run) && LiveTrail(c, p, v) && v in c.nodes
    ensures StateOf(run[|run| - 1], v).delivered
    decreases |p|
  {
    hide Step, StateOf, FirstHand;
    if |p| == 1 {
      assert (p + [v])[1] == v;
      NeighboursDeliver(c, run, v);
    } else {
      var q, u := p[..|p| - 1], p[|p| - 1];
      assert p == q + [u];
      ExtendTrail(c.nbrs, Via(c), c.source, q, u);
      assert (q + [u])[1] == (p + [v])[1];
      assert u != c.source && p[0] == c.source;
      TrailDelivers(c, run, q, u);
      DeliveryPassesOn(c, run, u, v);
    }
  }

  ghost predicate DeliversAtRest(c: Config, run: seq<Sys>, v: Node) {
    AtRest(c, run) ==> StateOf(run[|run| - 1], v).delivered
  }

  lemma StartRun(c: Config)
    ensures Run(c, [Started(c)])
  {
  }

  /** Some run at rest exists, and where it delivers there is a trail. */
  lemma DeliveryHasTrail(c: Config, v: Node) returns (p: Path)
    requires Legal(c) && Acquainted(c) && v in c.nodes && v != c.source
    requires forall run: seq<Sys> :: DeliversAtRest(c, run, v)
    ensures LiveTrail(c, p, v)
  {
    hide Run, StateOf, Started, FirstHand, Legal, Acquainted, Genuine, Evidence, PacketOk;
    StartRun(c);
    var run := ExtendToRest(c, [Started(c)]);
    assert run != [] by { RunIsNonempty(c, run); }
    var s := run[|run| - 1];
    assert DeliversAtRest(c, run, v);
    DeliveredHasPath(c, run, v);
    p := StateOf(s, v).paths[0];
    RunKeepsTraces(c, run);
    RunKeepsInv(c, run);
    assert StateTraced(c, s, v) && StateOk(c, StateOf(s, v), v);
    assert PathTraced(c, s, p, v);
  }

  /** With f = 0, for any topology and any silent processes: a process is sure to deliver exactly when
      a trail of participating processes leads to it. */
  lemma SureDeliveryExactly(c: Config, v: Node)
    requires Legal(c) && Acquainted(c) && c.f == 0 && v in c.nodes && v != c.source
    ensures (forall run: seq<Sys> :: DeliversAtRest(c, run, v)) <==> exists p: Path :: LiveTrail(c, p, v)
  {
    hide Run, StateOf, Legal, Acquainted, LiveTrail;
    if p: Path :| LiveTrail(c, p, v) {
      forall run: seq<Sys>
        ensures DeliversAtRest(c, run, v)
      {
        if AtRest(c, run) {
          TrailDelivers(c, run, p, v);
        }
      }
    }
    if forall run: seq<Sys> :: DeliversAtRest(c, run, v) {
      var p := DeliveryHasTrail(c, v);
    }
  }
}
