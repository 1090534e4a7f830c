/** Exactly when an optimized Dolev broadcast is delivered. */
module DolevVerdict {
  import opened Base
  import opened Ordering
  import opened Topology
  import opened DisjointSearch
  import opened Dolev
  import opened DolevEvidence
  import opened DolevSpread

  ghost predicate Passes(c: Config, st: State, v: Node) { Enough(EnvOf(c, v), st, c.source) }

  /** A check of the recorded paths is still to come. */
  ghost predicate CheckDue(s: Sys, v: Node) {
    exists t :: Todo(t) in s.bag && t.Relay? && t.m.dst == v
  }

  ghost predicate FromSource(c: Config, s: Sys) {
    forall pk :: pk in s.bag && pk.Wire? && pk.m.src == c.source
      ==> pk.m.dst in PeersOf(c, c.source) && pk.m.dst in FirstTargets(c)
  }

  ghost predicate Decided(c: Config, s: Sys, v: Node) {
    && (StateOf(s, v).delivered ==> FirstHand(c, v) || Passes(c, StateOf(s, v), v))
    && (Passes(c, StateOf(s, v), v) ==> StateOf(s, v).delivered || CheckDue(s, v))
  }

  ghost predicate VerdictInv(c: Config, s: Sys) {
    && FromSource(c, s)
    && forall v :: v in c.nodes && v != c.source ==> Decided(c, s, v)
  }

  // ----- one handler segment

  lemma DeliveryCause(c: Config, st: State, pk: Packet)
    requires PacketOk(c, pk) && Handled(c, st, pk).state.delivered && !st.delivered
    ensures var v := MsgOf(pk).dst;
            || (pk.Wire? && pk.m.src == c.source && v !in c.silent && c.source in NbrsOf(c.nbrs, v))
            || Passes(c, st, v)
  {
    hide Enough, SimpleWalk;
  }

  lemma CheckGoesOn(c: Config, st: State, pk: Packet)
    requires PacketOk(c, pk)
    ensures var r := Handled(c, st, pk);
            && st.paths <= r.state.paths
            && (r.state.paths != st.paths ==>
                  r.next.Some? && r.next.value.Relay? && r.next.value.m.dst == MsgOf(pk).dst)
            && (pk.Todo? && pk.t.Relay? && Passes(c, st, MsgOf(pk).dst) ==>
                  r.state.delivered || (r.next.Some? && r.next.value.Relay? && r.next.value.m.dst == MsgOf(pk).dst))
  {
    hide Handled, Passes, PacketOk;
    PathsGoOn(c, st, pk);
    RelayChecks(c, st, pk);
  }

  lemma PathsGoOn(c: Config, st: State, pk: Packet)
    ensures var r := Handled(c, st, pk);
            && st.paths <= r.state.paths
            && (r.state.paths != st.paths ==>
                  r.next.Some? && r.next.value.Relay? && r.next.value.m.dst == MsgOf(pk).dst)
  {
    hide Enough;
  }

  lemma RelayChecks(c: Config, st: State, pk: Packet)
    requires PacketOk(c, pk)
    ensures var r := Handled(c, st, pk);
            pk.Todo? && pk.t.Relay? && Passes(c, st, MsgOf(pk).dst) ==>
              r.state.delivered || (r.next.Some? && r.next.value.Relay? && r.next.value.m.dst == MsgOf(pk).dst)
  {
    hide Enough, SimpleWalk, BodyStep, EmptyStep;
  }

  /** More recorded paths keep the test passed. */
  lemma PassesStays(c: Config, st: State, st': State, v: Node)
    requires st.paths <= st'.paths && Passes(c, st, v)
    ensures Passes(c, st', v)
  {
    hide UnionGraph, IsPath;
    var more := st'.paths[|st.paths|..];
    assert st'.paths == st.paths + more;
    BothChecksMonotone(st.paths, more, c.source, v, c.f);
  }

  lemma PassesByPaths(c: Config, st: State, st': State, v: Node)
    requires st.paths == st'.paths
    ensures Passes(c, st, v) == Passes(c, st', v)
  {
  }

  lemma SendsAreMine(c: Config, st: State, pk: Packet)
    ensures forall m :: m in Handled(c, st, pk).sends ==> m.src == MsgOf(pk).dst
    ensures Handled(c, st, pk).sends != {} ==> pk.Todo?
  {
    hide Enough;
  }

  lemma TaskIsNotSources(c: Config, pk: Packet)
    requires PacketOk(c, pk) && pk.Todo?
    ensures MsgOf(pk).dst != c.source
  {
  }

  // ----- one step

  lemma FromSourceAfter(c: Config, s: Sys, pk: Packet)
    requires FromSource(c, s) && PacketOk(c, pk) && pk in s.bag
    ensures FromSource(c, Deliver(c, s, pk))
  {
    hide Handled, After, FirstTargets, PacketOk;
    var st := StateOf(s, MsgOf(pk).dst);
    AfterFacts(s, pk, Handled(c, st, pk), Deliver(c, s, pk));
    SendsAreMine(c, st, pk);
    if pk.Todo? {
      TaskIsNotSources(c, pk);
    }
  }

  lemma ReasonStays(c: Config, s: Sys, pk: Packet, v: Node)
    requires FromSource(c, s) && PacketOk(c, pk) && pk in s.bag && v in c.nodes && Decided(c, s, v)
    ensures StateOf(Deliver(c, s, pk), v).delivered
      ==> FirstHand(c, v) || Passes(c, StateOf(Deliver(c, s, pk), v), v)
  {
    hide Handled, After, FirstTargets, PacketOk, Passes, StateOf;
    var st, s' := StateOf(s, MsgOf(pk).dst), Deliver(c, s, pk);
    AfterFacts(s, pk, Handled(c, st, pk), s');
    CheckGoesOn(c, st, pk);
    if v == MsgOf(pk).dst {
      if StateOf(s', v).delivered && !st.delivered {
        DeliveryCause(c, st, pk);
      }
      if Passes(c, st, v) {
        PassesStays(c, st, StateOf(s', v), v);
      }
    }
  }

  lemma CheckStays(c: Config, s: Sys, pk: Packet, v: Node)
    requires PacketOk(c, pk) && pk in s.bag && Decided(c, s, v)
    ensures Passes(c, StateOf(Deliver(c, s, pk), v), v)
      ==> StateOf(Deliver(c, s, pk), v).delivered || CheckDue(Deliver(c, s, pk), v)
  {
    hide Handled, After, PacketOk, Passes, StateOf, FirstHand;
    var st, s' := StateOf(s, MsgOf(pk).dst), Deliver(c, s, pk);
    var r := Handled(c, st, pk);
    AfterFacts(s, pk, r, s');
    AfterGives(s, pk, r);
    AfterKeeps(s, pk, r);
    HandledKeeps(c, st, pk);
    CheckGoesOn(c, st, pk);
    var was, now := StateOf(s, v), StateOf(s', v);
    if was.paths == now.paths && Passes(c, now, v) && !now.delivered {
      PassesByPaths(c, was, now, v);
      var t :| Todo(t) in s.bag && t.Relay? && t.m.dst == v;
      assert pk != Todo(t) ==> Todo(t) in s'.bag;
    }
  }

  lemma VerdictAfter(c: Config, s: Sys, pk: Packet)
    requires Legal(c) && Inv(c, s) && VerdictInv(c, s) && pk in s.bag
    ensures VerdictInv(c, Deliver(c, s, pk))
  {
    hide FromSource, Deliver, StateOf, Passes, CheckDue, FirstHand;
    FromSourceAfter(c, s, pk);
    forall v | v in c.nodes && v != c.source
      ensures Decided(c, Deliver(c, s, pk), v)
    {
      ReasonStays(c, s, pk, v);
      CheckStays(c, s, pk, v);
    }
  }

  lemma VerdictStarted(c: Config)
    ensures VerdictInv(c, Started(c))
  {
    hide FirstTargets, DisjointPaths, UnionGraph;
  }

  lemma {:induction false} RunKeepsVerdict(c: Config, run: seq<Sys>)
    requires Legal(c) && Run(c, run)
    ensures VerdictInv(c, run[|run| - 1])
  {
    hide Inv, VerdictInv, Deliver, Started;
    var n := |run| - 1;
    if n == 0 {
      VerdictStarted(c);
    } else {
      assert Run(c, run[..n]);
      RunKeepsVerdict(c, run[..n]);
      RunKeepsInv(c, run[..n]);
      assert Step(c, run[n - 1], run[n]);
      var pk: Packet :| StepOf(c, run[n - 1], pk, run[n]);
      VerdictAfter(c, run[n - 1], pk);
    }
  }

  /** At rest a process other than the originator has delivered exactly when the source sends to
      it first hand or the paths it has recorded contain f+1 disjoint ones. */
  lemma DeliveredExactly(c: Config, run: seq<Sys>, v: Node)
    requires Legal(c) && Run(c, run) && run[|run| - 1].bag == multiset{} && v in c.nodes && v != c.source
    ensures StateOf(run[|run| - 1], v).delivered
      <==> FirstHand(c, v) || Enough(EnvOf(c, v), StateOf(run[|run| - 1], v), c.source)
  {
    hide Step, StateOf, FirstHand, Enough;
    RunKeepsVerdict(c, run);
    assert Decided(c, run[|run| - 1], v);
    if FirstHand(c, v) {
      NeighboursDeliver(c, run, v);
    }
  }
}
