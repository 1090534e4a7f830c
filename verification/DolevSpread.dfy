/** How far an optimized Dolev broadcast has spread at rest: every delivery is announced to the
    neighbours, and every recorded path is passed on to whoever is not known to be done. */
module DolevSpread {
  import opened Base
  import opened Ordering
  import opened Topology
  import opened Dolev
  import opened DolevEvidence

  predicate Finished(st: State) { st.delivered && st.forwardedEmpty }

  /** |q| has nothing to learn from an EMPTY of |v|, or has learned it. */
  predicate Told(c: Config, st: State, q: Node, v: Node) {
    q in c.silent || v !in NbrsOf(c.nbrs, q) || v in Informed(st) || Finished(st)
  }

  /** |w| takes no paths from |u|, is done, or has recorded this one. */
  predicate Landed(c: Config, st: State, w: Node, u: Node, p: Path) {
    w in c.silent || u !in NbrsOf(c.nbrs, w) || Finished(st) || p + [u] in st.paths
  }

  predicate Reachable(c: Config, v: Node, q: Node) {
    q in PeersOf(c, v) && q in NbrsOf(c.nbrs, v)
  }

  predicate IsAnnouncing(t: Task, v: Node) { t.m.dst == v && (t.AfterUpcall? || t.EmptySent?) }

  predicate IsRelaying(t: Task, u: Node, p: Path, w: Node) {
    t.Relay? && t.m.dst == u && t.m.path + [t.m.src] == p && w in t.rest
  }

  ghost predicate Announcing(s: Sys, v: Node) {
    exists t :: Todo(t) in s.bag && IsAnnouncing(t, v)
  }

  ghost predicate EmptyGone(s: Sys, v: Node) {
    StateOf(s, v).forwardedEmpty || exists t :: Todo(t) in s.bag && t.EmptySent? && t.m.dst == v
  }

  ghost predicate Relaying(s: Sys, u: Node, p: Path, w: Node) {
    exists t :: Todo(t) in s.bag && IsRelaying(t, u, p, w)
  }

  function Empty(c: Config, v: Node, q: Node): Packet { Wire(Msg(v, q, c.source, [])) }

  function Longer(c: Config, u: Node, w: Node, p: Path): Packet { Wire(Msg(u, w, c.source, p)) }

  ghost predicate Owed(s: Sys, v: Node) {
    StateOf(s, v).delivered ==> StateOf(s, v).forwardedEmpty || Announcing(s, v)
  }

  ghost predicate Spread(c: Config, s: Sys, v: Node, q: Node) {
    EmptyGone(s, v) ==> Empty(c, v, q) in s.bag || Told(c, StateOf(s, q), q, v)
  }

  ghost predicate Passed(c: Config, s: Sys, u: Node, w: Node, p: Path) {
    || w in Informed(StateOf(s, u)) || Relaying(s, u, p, w)
    || Longer(c, u, w, p) in s.bag || Landed(c, StateOf(s, w), w, u, p)
  }

  ghost predicate SpreadInv(c: Config, s: Sys) {
    && (forall v :: v in c.nodes && v != c.source ==> Owed(s, v))
    && (forall v, q :: v in c.nodes && v != c.source && Reachable(c, v, q) ==> Spread(c, s, v, q))
    && (forall u, w, p: Path :: u in c.nodes && Reachable(c, u, w) && p in StateOf(s, u).paths && w !in p
          ==> Passed(c, s, u, w, p))
  }

  // ----- one handler segment

  /** Nothing is forgotten. */
  predicate Keeps(st: State, st': State) {
    && (st.delivered ==> st'.delivered) && (st.forwardedEmpty ==> st'.forwardedEmpty)
    && Informed(st) <= Informed(st') && (forall p :: p in st.paths ==> p in st'.paths)
  }

  lemma HandledKeeps(c: Config, st: State, pk: Packet)
    ensures Keeps(st, Handled(c, st, pk).state)
  {
    hide Enough;
  }

  /** What a segment owes after a delivery, an upcall and the sending of EMPTY. */
  lemma AnnouncementGoesOn(c: Config, st: State, pk: Packet)
    ensures var r := Handled(c, st, pk);
            && (r.state.delivered && !st.delivered ==> r.next.Some? && IsAnnouncing(r.next.value, MsgOf(pk).dst))
            && (pk.Todo? && pk.t.AfterUpcall? && !r.state.forwardedEmpty ==>
                  r.next.Some? && IsAnnouncing(r.next.value, MsgOf(pk).dst))
            && (pk.Todo? && pk.t.EmptySent? ==> r.state.forwardedEmpty)
            && (r.state.forwardedEmpty && !st.forwardedEmpty ==> pk.Todo? && pk.t.EmptySent?)
  {
    hide Enough;
  }

  lemma EmptyIsSent(c: Config, st: State, pk: Packet, q: Node)
    requires PacketOk(c, pk) && Reachable(c, MsgOf(pk).dst, q)
    ensures var r := Handled(c, st, pk);
            r.next.Some? && r.next.value.EmptySent? ==>
              r.next.value.m.dst == MsgOf(pk).dst && Empty(c, MsgOf(pk).dst, q).m in r.sends
  {
    hide Enough, Honest, SimpleWalk;
    AboutSource(c, pk);
  }

  lemma AboutSource(c: Config, pk: Packet)
    requires PacketOk(c, pk)
    ensures MsgOf(pk).source == c.source
  {
  }

  lemma EmptyTells(c: Config, st: State, v: Node, q: Node)
    requires v != c.source
    ensures Told(c, Handled(c, st, Empty(c, v, q)).state, q, v)
  {
  }

  lemma EndIsNew(p: Path, u: Node)
    requires Distinct(p + [u])
    ensures u !in p
  {
    assert forall i :: 0 <= i < |p| ==> p[i] == (p + [u])[i] != (p + [u])[|p|];
  }

  /** The rule that drops a known neighbour's detour never applies: no honest message has its
      sender on the path it carries. */
  lemma DetourRuleIsIdle(c: Config, m: Msg)
    requires Accepted(c, m)
    ensures m.src !in m.path
  {
    if m.path != [] {
      EndIsNew(m.path, m.src);
    }
  }

  lemma LongerLands(c: Config, st: State, u: Node, w: Node, p: Path)
    requires Honest(c, Longer(c, u, w, p).m) && p != []
    ensures Landed(c, Handled(c, st, Longer(c, u, w, p)).state, w, u, p)
  {
    var m := Longer(c, u, w, p).m;
    assert m.src != c.source;
    EndIsNew(p, u);
  }

  lemma RelayGoesOn(c: Config, st: State, t: Task, w: Node, p: Path)
    requires TaskOk(c, t) && IsRelaying(t, t.m.dst, p, w) && w !in p && w in NbrsOf(c.nbrs, t.m.dst)
    ensures var r := Handled(c, st, Todo(t));
            || w in Informed(r.state) || Longer(c, t.m.dst, w, p).m in r.sends
            || (r.next.Some? && IsRelaying(r.next.value, t.m.dst, p, w))
  {
    hide Honest, SimpleWalk, Enough;
    AboutSource(c, Todo(t));
  }

  lemma NewPathIsRelayed(c: Config, st: State, pk: Packet, w: Node, p: Path)
    requires w in PeersOf(c, MsgOf(pk).dst)
    requires p !in st.paths && p in Handled(c, st, pk).state.paths
    ensures var r := Handled(c, st, pk); r.next.Some? && IsRelaying(r.next.value, MsgOf(pk).dst, p, w)
  {
    hide Enough;
  }

  lemma AfterGives(s: Sys, pk: Packet, r: Result)
    ensures forall m :: m in r.sends ==> Wire(m) in After(s, pk, r).bag
    ensures r.next.Some? ==> Todo(r.next.value) in After(s, pk, r).bag
  {
    forall m | m in r.sends
      ensures Wire(m) in After(s, pk, r).bag
    {
      assert Wire(m) in (set x | x in r.sends :: Wire(x));
    }
  }

  // ----- one step

  lemma OwedAfter(c: Config, s: Sys, pk: Packet, v: Node)
    requires pk in s.bag && Owed(s, v)
    ensures Owed(Deliver(c, s, pk), v)
  {
    hide Handled, After, StateOf;
    var st, s' := StateOf(s, MsgOf(pk).dst), Deliver(c, s, pk);
    var r := Handled(c, st, pk);
    AfterFacts(s, pk, r, s');
    AfterGives(s, pk, r);
    AfterKeeps(s, pk, r);
    HandledKeeps(c, st, pk);
    AnnouncementGoesOn(c, st, pk);
    if StateOf(s', v).delivered && !StateOf(s', v).forwardedEmpty {
      if StateOf(s, v).delivered && StateOf(s, v).forwardedEmpty {
        assert false;
      } else if StateOf(s, v).delivered {
        var t :| Todo(t) in s.bag && IsAnnouncing(t, v);
        assert pk != Todo(t) ==> Todo(t) in s'.bag;
      }
    }
  }

  /** A process that has newly begun or ended sending EMPTY has put it on the wire. */
  lemma NewEmptyIsOut(c: Config, s: Sys, pk: Packet, v: Node, q: Node)
    requires pk in s.bag && PacketOk(c, pk) && Reachable(c, v, q)
    requires EmptyGone(Deliver(c, s, pk), v) && !EmptyGone(s, v)
    ensures Empty(c, v, q) in Deliver(c, s, pk).bag
  {
    hide Handled, After, StateOf, PacketOk;
    var st, s' := StateOf(s, MsgOf(pk).dst), Deliver(c, s, pk);
    var r := Handled(c, st, pk);
    AfterFacts(s, pk, r, s');
    AfterGives(s, pk, r);
    AnnouncementGoesOn(c, st, pk);
    NextIsMine(c, st, pk);
    if MsgOf(pk).dst == v {
      EmptyIsSent(c, st, pk, q);
    }
  }

  lemma NextIsMine(c: Config, st: State, pk: Packet)
    ensures var r := Handled(c, st, pk); r.next.Some? ==> r.next.value.m.dst == MsgOf(pk).dst
  {
    hide Enough;
  }

  lemma SpreadAfter(c: Config, s: Sys, pk: Packet, v: Node, q: Node)
    requires pk in s.bag && PacketOk(c, pk) && v != c.source && Reachable(c, v, q) && Spread(c, s, v, q)
    ensures Spread(c, Deliver(c, s, pk), v, q)
  {
    hide Handled, After, StateOf, PacketOk, Told, EmptyGone;
    var st, s' := StateOf(s, MsgOf(pk).dst), Deliver(c, s, pk);
    AfterFacts(s, pk, Handled(c, st, pk), s');
    AfterKeeps(s, pk, Handled(c, st, pk));
    if EmptyGone(s', v) {
      if !EmptyGone(s, v) {
        NewEmptyIsOut(c, s, pk, v, q);
      } else {
        ToldStays(c, s, pk, v, q);
        EmptyTells(c, StateOf(s, q), v, q);
      }
    }
  }

  lemma ToldStays(c: Config, s: Sys, pk: Packet, v: Node, q: Node)
    requires pk in s.bag
    ensures Told(c, StateOf(s, q), q, v) ==> Told(c, StateOf(Deliver(c, s, pk), q), q, v)
  {
    hide Handled, After, StateOf;
    var st := StateOf(s, MsgOf(pk).dst);
    AfterFacts(s, pk, Handled(c, st, pk), Deliver(c, s, pk));
    HandledKeeps(c, st, pk);
  }

  lemma LandedStays(c: Config, s: Sys, pk: Packet, w: Node, u: Node, p: Path)
    requires pk in s.bag
    ensures Landed(c, StateOf(s, w), w, u, p) ==> Landed(c, StateOf(Deliver(c, s, pk), w), w, u, p)
  {
    hide Handled, After, StateOf;
    var st := StateOf(s, MsgOf(pk).dst);
    AfterFacts(s, pk, Handled(c, st, pk), Deliver(c, s, pk));
    HandledKeeps(c, st, pk);
  }

  /** A path not recorded before has its relaying in front of it. */
  lemma NewPathIsOnItsWay(c: Config, s: Sys, pk: Packet, u: Node, w: Node, p: Path)
    requires pk in s.bag && Reachable(c, u, w)
    requires p !in StateOf(s, u).paths && p in StateOf(Deliver(c, s, pk), u).paths
    ensures Relaying(Deliver(c, s, pk), u, p, w)
  {
    hide Handled, After, StateOf;
    var st := StateOf(s, MsgOf(pk).dst);
    var r := Handled(c, st, pk);
    AfterFacts(s, pk, r, Deliver(c, s, pk));
    AfterGives(s, pk, r);
    NewPathIsRelayed(c, st, pk, w, p);
  }

  lemma RelayingGoesOn(c: Config, s: Sys, pk: Packet, u: Node, w: Node, p: Path)
    requires pk in s.bag && PacketOk(c, pk) && Reachable(c, u, w) && w !in p && Relaying(s, u, p, w)
    ensures Passed(c, Deliver(c, s, pk), u, w, p)
  {
    hide Handled, After, StateOf, Landed;
    var st, s' := StateOf(s, MsgOf(pk).dst), Deliver(c, s, pk);
    var r := Handled(c, st, pk);
    AfterFacts(s, pk, r, s');
    AfterGives(s, pk, r);
    AfterKeeps(s, pk, r);
    var t :| Todo(t) in s.bag && IsRelaying(t, u, p, w);
    if pk == Todo(t) {
      RelayGoesOn(c, st, t, w, p);
    } else {
      assert Todo(t) in s'.bag;
    }
  }

  lemma PassedAfter(c: Config, s: Sys, pk: Packet, u: Node, w: Node, p: Path)
    requires pk in s.bag && PacketOk(c, pk) && Reachable(c, u, w) && w !in p && p != [] && Passed(c, s, u, w, p)
    ensures Passed(c, Deliver(c, s, pk), u, w, p)
  {
    hide Handled, After, StateOf, Landed, Relaying, Honest;
    var st, s' := StateOf(s, MsgOf(pk).dst), Deliver(c, s, pk);
    AfterFacts(s, pk, Handled(c, st, pk), s');
    AfterKeeps(s, pk, Handled(c, st, pk));
    HandledKeeps(c, st, pk);
    if Relaying(s, u, p, w) {
      RelayingGoesOn(c, s, pk, u, w, p);
    } else if pk == Longer(c, u, w, p) {
      LongerLands(c, st, u, w, p);
    } else {
      LandedStays(c, s, pk, w, u, p);
    }
  }

  lemma SpreadInvAfter(c: Config, s: Sys, pk: Packet)
    requires Legal(c) && Inv(c, s) && SpreadInv(c, s) && pk in s.bag
    ensures SpreadInv(c, Deliver(c, s, pk))
  {
    hide Deliver, Owed, Spread, Passed, StateOf, Evidence, Reachable;
    var s' := Deliver(c, s, pk);
    forall v | v in c.nodes && v != c.source
      ensures Owed(s', v)
    {
      OwedAfter(c, s, pk, v);
    }
    forall v, q | v in c.nodes && v != c.source && Reachable(c, v, q)
      ensures Spread(c, s', v, q)
    {
      SpreadAfter(c, s, pk, v, q);
    }
    forall u, w, p: Path | u in c.nodes && Reachable(c, u, w) && p in StateOf(s', u).paths && w !in p
      ensures Passed(c, s', u, w, p)
    {
      if p in StateOf(s, u).paths {
        assert Genuine(c, p, u);
        PassedAfter(c, s, pk, u, w, p);
      } else {
        NewPathIsOnItsWay(c, s, pk, u, w, p);
        PassedIfRelaying(c, s', u, w, p);
      }
    }
  }

  lemma PassedIfRelaying(c: Config, s: Sys, u: Node, w: Node, p: Path)
    requires Relaying(s, u, p, w)
    ensures Passed(c, s, u, w, p)
  {
  }

  lemma SpreadStarted(c: Config)
    ensures SpreadInv(c, Started(c))
  {
    hide FirstTargets;
  }

  lemma {:induction false} RunKeepsSpread(c: Config, run: seq<Sys>)
    requires Legal(c) && Run(c, run)
    ensures SpreadInv(c, run[|run| - 1])
  {
    hide Inv, SpreadInv, Deliver, Started;
    var n := |run| - 1;
    if n == 0 {
      SpreadStarted(c);
    } else {
      assert Run(c, run[..n]);
      RunKeepsSpread(c, run[..n]);
      RunKeepsInv(c, run[..n]);
      assert Step(c, run[n - 1], run[n]);
      var pk: Packet :| StepOf(c, run[n - 1], pk, run[n]);
      SpreadInvAfter(c, run[n - 1], pk);
    }
  }

  // ----- at rest

  /** Announcement: at rest every process that has delivered, other than the originator, has sent
      EMPTY to its neighbours, and each of them that takes part and listens knows it or is done. */
  lemma DeliveriesAreAnnounced(c: Config, run: seq<Sys>, v: Node, q: Node)
    requires Legal(c) && Run(c, run) && run[|run| - 1].bag == multiset{}
    requires v in c.nodes && v != c.source && StateOf(run[|run| - 1], v).delivered
    ensures StateOf(run[|run| - 1], v).forwardedEmpty
    ensures Reachable(c, v, q) && q !in c.silent && v in NbrsOf(c.nbrs, q)
      ==> v in Informed(StateOf(run[|run| - 1], q)) || Finished(StateOf(run[|run| - 1], q))
  {
    hide Step, StateOf, Passed, Informed;
    RunKeepsSpread(c, run);
    assert Owed(run[|run| - 1], v);
    if Reachable(c, v, q) {
      assert Spread(c, run[|run| - 1], v, q);
    }
  }

  /** Relaying: at rest each path recorded at |u| has been recorded, with |u| added, at every
      neighbour of |u| off the path that takes part and listens, save those |u| knows to have
      delivered and those that are done. */
  lemma PathsArePassedOn(c: Config, run: seq<Sys>, u: Node, w: Node, p: Path)
    requires Legal(c) && Run(c, run) && run[|run| - 1].bag == multiset{}
    requires u in c.nodes && Reachable(c, u, w) && p in StateOf(run[|run| - 1], u).paths && w !in p
    requires w !in c.silent && u in NbrsOf(c.nbrs, w)
    ensures p + [u] in StateOf(run[|run| - 1], w).paths || w in Informed(StateOf(run[|run| - 1], u))
      || Finished(StateOf(run[|run| - 1], w))
  {
    hide Step, StateOf, Owed, Spread, Informed;
    RunKeepsSpread(c, run);
    assert Passed(c, run[|run| - 1], u, w, p);
  }
}
