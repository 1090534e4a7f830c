/** Which neighbours a relaying loop of the optimized Dolev protocol passes over. A loop that begins
    while the process has noted nobody looks at a set of its own, which stays empty; a loop that
    begins later sees the neighbours noted while it runs. */
module DolevRelays {
  import opened Base
  import opened Ordering
  import opened Topology
  import opened Dolev
  import opened DolevEvidence
  import opened DolevSpread
  import opened DolevCutoff

  // ----- one handler segment

  /** A path recorded for the first time is relayed by a loop that sees later notes exactly if the
      process had noted somebody. */
  lemma NewLoop(c: Config, st: State, pk: Packet, w: Node, p: Path)
    requires w in PeersOf(c, MsgOf(pk).dst)
    requires p !in st.paths && p in Handled(c, st, pk).state.paths
    ensures var r := Handled(c, st, pk);
            && r.next.Some? && IsRelaying(r.next.value, MsgOf(pk).dst, p, w)
            && (r.next.value.live <==> st.informed.Some?)
  {
    hide Enough;
  }

  /** A loop that sees no notes sends to each listening neighbour in its turn. */
  lemma SnapshotGoesOn(c: Config, st: State, t: Task, w: Node, p: Path)
    requires TaskOk(c, t) && IsRelaying(t, t.m.dst, p, w) && !t.live && w !in p && w in NbrsOf(c.nbrs, t.m.dst)
    ensures var r := Handled(c, st, Todo(t));
            || Longer(c, t.m.dst, w, p).m in r.sends
            || (r.next.Some? && IsRelaying(r.next.value, t.m.dst, p, w) && !r.next.value.live)
  {
    hide Honest, SimpleWalk, Enough;
    AboutSource(c, Todo(t));
  }

  /** A loop that sees notes passes over whoever has been noted, and every new loop sees notes. */
  lemma NotedIsSkipped(c: Config, st: State, pk: Packet, w: Node, p: Path)
    requires w in Informed(st) && p != []
    requires pk.Todo? && IsRelaying(pk.t, MsgOf(pk).dst, p, w) ==> pk.t.live
    ensures var r := Handled(c, st, pk);
            && (r.next.Some? && IsRelaying(r.next.value, MsgOf(pk).dst, p, w) ==> r.next.value.live)
            && Longer(c, MsgOf(pk).dst, w, p).m !in r.sends
  {
    hide Enough;
  }

  /** A loop relays only a path that has been recorded. */
  lemma LoopIsRecorded(c: Config, st: State, pk: Packet)
    requires pk.Todo? && pk.t.Relay? ==> pk.t.m.path + [pk.t.m.src] in st.paths
    ensures var r := Handled(c, st, pk);
            && (r.next.Some? && r.next.value.Relay? ==>
                  r.next.value.m.path + [r.next.value.m.src] in r.state.paths)
            && (forall m :: m in r.sends && m.path != [] ==> m.path in r.state.paths && m.src == MsgOf(pk).dst)
  {
    hide Enough;
  }

  // ----- loops that began before anybody was noted

  ghost predicate Owing(c: Config, s: Sys, u: Node, w: Node, p: Path) {
    || (exists t :: Todo(t) in s.bag && IsRelaying(t, u, p, w) && !t.live)
    || Longer(c, u, w, p) in s.bag || Landed(c, StateOf(s, w), w, u, p)
  }

  lemma OwingAfter(c: Config, s: Sys, pk: Packet, u: Node, w: Node, p: Path)
    requires pk in s.bag && PacketOk(c, pk) && Reachable(c, u, w) && w !in p && p != [] && Owing(c, s, u, w, p)
    ensures Owing(c, Deliver(c, s, pk), u, w, p)
  {
    hide Handled, After, StateOf, Landed, Honest;
    var st, s' := StateOf(s, MsgOf(pk).dst), Deliver(c, s, pk);
    var r := Handled(c, st, pk);
    AfterFacts(s, pk, r, s');
    AfterGives(s, pk, r);
    AfterKeeps(s, pk, r);
    if t :| Todo(t) in s.bag && IsRelaying(t, u, p, w) && !t.live {
      if pk == Todo(t) {
        SnapshotGoesOn(c, st, t, w, p);
      } else {
        assert Todo(t) in s'.bag;
      }
    } else if pk == Longer(c, u, w, p) {
      LongerLands(c, st, u, w, p);
    } else {
      LandedStays(c, s, pk, w, u, p);
    }
  }

  /** |u| has just recorded |p|. */
  predicate Records(s: Sys, s': Sys, u: Node, p: Path) {
    p !in StateOf(s, u).paths && p in StateOf(s', u).paths
  }

  lemma BeginsOwing(c: Config, s: Sys, pk: Packet, u: Node, w: Node, p: Path)
    requires pk in s.bag && Reachable(c, u, w) && Records(s, Deliver(c, s, pk), u, p) && StateOf(s, u).informed == None
    ensures Owing(c, Deliver(c, s, pk), u, w, p)
  {
    hide Handled, After, StateOf, Landed;
    var st := StateOf(s, MsgOf(pk).dst);
    var r := Handled(c, st, pk);
    AfterFacts(s, pk, r, Deliver(c, s, pk));
    AfterGives(s, pk, r);
    NewLoop(c, st, pk, w, p);
  }

  lemma {:induction false} OwingTill(c: Config, run: seq<Sys>, i: nat, j: nat, u: Node, w: Node, p: Path)
    requires Legal(c) && Run(c, run) && i < j < |run| && u in c.nodes && Reachable(c, u, w) && w !in p && p != []
    requires Records(run[i], run[i + 1], u, p) && StateOf(run[i], u).informed == None
    ensures Owing(c, run[j], u, w, p)
  {
    hide Inv, Deliver, Started, StateOf, Owing, Legal, Reachable;
    PrefixRun(c, run, j - 1);
    RunKeepsInv(c, run[..j]);
    assert Step(c, run[j - 1], run[j - 1 + 1]);
    var pk: Packet :| StepOf(c, run[j - 1], pk, run[j]);
    if j == i + 1 {
      BeginsOwing(c, run[i], pk, u, w, p);
    } else {
      OwingTill(c, run, i, j - 1, u, w, p);
      InInv(c, run[j - 1], pk);
      OwingAfter(c, run[j - 1], pk, u, w, p);
    }
  }

  /** A path recorded while nobody had been noted: at rest every listening neighbour off the path has
      recorded it, one longer, or is done, also if it was noted while the loop ran. */
  lemma UnnotedLoopReachesAll(c: Config, run: seq<Sys>, i: nat, u: Node, w: Node, p: Path)
    requires Legal(c) && Run(c, run) && i + 1 < |run| && run[|run| - 1].bag == multiset{}
    requires u in c.nodes && Reachable(c, u, w) && w !in p && w !in c.silent && u in NbrsOf(c.nbrs, w)
    requires Records(run[i], run[i + 1], u, p) && StateOf(run[i], u).informed == None
    ensures p + [u] in StateOf(run[|run| - 1], w).paths || Finished(StateOf(run[|run| - 1], w))
  {
    hide Step, StateOf, Legal;
    RecordedIsNonempty(c, run, i, u, p);
    OwingTill(c, run, i, |run| - 1, u, w, p);
  }

  lemma RecordedIsNonempty(c: Config, run: seq<Sys>, i: nat, u: Node, p: Path)
    requires Legal(c) && Run(c, run) && i + 1 < |run| && u in c.nodes && Records(run[i], run[i + 1], u, p)
    ensures p != []
  {
    hide Step, StateOf, Legal, Evidence;
    PrefixRun(c, run, i + 1);
    RecordedPathsAreGenuine(c, run[..i + 2], u, p);
  }

  // ----- loops that began later

  /** Whatever |u| relays it has recorded. */
  ghost predicate LoopsRecorded(s: Sys) {
    && (forall t :: Todo(t) in s.bag && t.Relay? ==> t.m.path + [t.m.src] in StateOf(s, t.m.dst).paths)
    && (forall m :: Wire(m) in s.bag && m.path != [] ==> m.path in StateOf(s, m.src).paths)
  }

  lemma LoopsRecordedAfter(c: Config, s: Sys, pk: Packet)
    requires LoopsRecorded(s) && pk in s.bag
    ensures LoopsRecorded(Deliver(c, s, pk))
  {
    hide Handled, After, StateOf;
    var st, s' := StateOf(s, MsgOf(pk).dst), Deliver(c, s, pk);
    var r := Handled(c, st, pk);
    AfterFacts(s, pk, r, s');
    HandledKeeps(c, st, pk);
    NextKeepsDst(c, st, pk);
    LoopIsRecorded(c, st, pk);
  }

  lemma {:induction false} RunKeepsLoops(c: Config, run: seq<Sys>, i: nat)
    requires Run(c, run) && i < |run|
    ensures LoopsRecorded(run[i])
  {
    hide LoopsRecorded, Deliver;
    if i == 0 {
      StartHasNoLoops(c);
    } else {
      RunKeepsLoops(c, run, i - 1);
      assert Step(c, run[i - 1], run[i - 1 + 1]);
      var pk: Packet :| StepOf(c, run[i - 1], pk, run[i]);
      LoopsRecordedAfter(c, run[i - 1], pk);
    }
  }

  lemma StartHasNoLoops(c: Config)
    ensures LoopsRecorded(Started(c))
  {
  }

  /** Every loop for |p| at |u| sees notes, and any later one will. */
  ghost predicate Seeing(s: Sys, u: Node, w: Node, p: Path) {
    && StateOf(s, u).informed.Some?
    && forall t :: Todo(t) in s.bag && IsRelaying(t, u, p, w) ==> t.live
  }

  lemma LoopSees(c: Config, st: State, pk: Packet, w: Node, p: Path)
    requires st.informed.Some?
    requires pk.Todo? && IsRelaying(pk.t, MsgOf(pk).dst, p, w) ==> pk.t.live
    ensures var r := Handled(c, st, pk);
            && r.state.informed.Some?
            && (r.next.Some? && IsRelaying(r.next.value, MsgOf(pk).dst, p, w) ==> r.next.value.live)
  {
    hide Enough;
  }

  lemma SeeingAfter(c: Config, s: Sys, pk: Packet, u: Node, w: Node, p: Path)
    requires Seeing(s, u, w, p) && pk in s.bag
    ensures Seeing(Deliver(c, s, pk), u, w, p)
  {
    hide Handled, After, StateOf;
    var st := StateOf(s, MsgOf(pk).dst);
    AfterFacts(s, pk, Handled(c, st, pk), Deliver(c, s, pk));
    NextKeepsDst(c, st, pk);
    if MsgOf(pk).dst == u {
      LoopSees(c, st, pk, w, p);
    }
  }

  lemma BeginsSeeing(c: Config, s: Sys, pk: Packet, u: Node, w: Node, p: Path)
    requires LoopsRecorded(s) && pk in s.bag && Records(s, Deliver(c, s, pk), u, p) && StateOf(s, u).informed.Some?
    ensures Seeing(Deliver(c, s, pk), u, w, p)
  {
    hide Handled, After, StateOf;
    var st := StateOf(s, MsgOf(pk).dst);
    AfterFacts(s, pk, Handled(c, st, pk), Deliver(c, s, pk));
    NextKeepsDst(c, st, pk);
    LoopSees(c, st, pk, w, p);
  }

  lemma {:induction false} SeeingTill(c: Config, run: seq<Sys>, i: nat, j: nat, u: Node, w: Node, p: Path)
    requires Run(c, run) && i < j < |run| && Records(run[i], run[i + 1], u, p) && StateOf(run[i], u).informed.Some?
    ensures Seeing(run[j], u, w, p)
  {
    hide Deliver, Started, StateOf, Seeing, LoopsRecorded;
    assert Step(c, run[j - 1], run[j - 1 + 1]);
    var pk: Packet :| StepOf(c, run[j - 1], pk, run[j]);
    if j == i + 1 {
      RunKeepsLoops(c, run, i);
      BeginsSeeing(c, run[i], pk, u, w, p);
    } else {
      SeeingTill(c, run, i, j - 1, u, w, p);
      SeeingAfter(c, run[j - 1], pk, u, w, p);
    }
  }

  lemma NoCopyAfter(c: Config, s: Sys, pk: Packet, u: Node, w: Node, p: Path)
    requires Seeing(s, u, w, p) && w in Informed(StateOf(s, u)) && Longer(c, u, w, p) !in s.bag
    requires p != [] && pk in s.bag
    ensures w in Informed(StateOf(Deliver(c, s, pk), u)) && Longer(c, u, w, p) !in Deliver(c, s, pk).bag
  {
    hide Handled, After, StateOf, Informed;
    var st := StateOf(s, MsgOf(pk).dst);
    AfterFacts(s, pk, Handled(c, st, pk), Deliver(c, s, pk));
    HandledKeeps(c, st, pk);
    SendsComeFrom(c, st, pk);
    if MsgOf(pk).dst == u {
      NotedIsSkipped(c, st, pk, w, p);
    }
  }

  lemma SendsComeFrom(c: Config, st: State, pk: Packet)
    ensures forall m :: m in Handled(c, st, pk).sends ==> m.src == MsgOf(pk).dst
  {
    hide Enough;
  }

  /** A path recorded when somebody had been noted: a neighbour that is noted before its turn gets no
      copy of the path from then on. */
  lemma {:induction false} NotedBeforeItsTurn(
      c: Config, run: seq<Sys>, i: nat, k: nat, j: nat, u: Node, w: Node, p: Path)
    requires Run(c, run) && i < k <= j < |run| && p != []
    requires Records(run[i], run[i + 1], u, p) && StateOf(run[i], u).informed.Some?
    requires w in Informed(StateOf(run[k], u)) && Longer(c, u, w, p) !in run[k].bag
    ensures w in Informed(StateOf(run[j], u)) && Longer(c, u, w, p) !in run[j].bag
  {
    hide Deliver, Started, StateOf, Seeing, Informed;
    if k < j {
      NotedBeforeItsTurn(c, run, i, k, j - 1, u, w, p);
      SeeingTill(c, run, i, j - 1, u, w, p);
      assert Step(c, run[j - 1], run[j - 1 + 1]);
      var pk: Packet :| StepOf(c, run[j - 1], pk, run[j]);
      NoCopyAfter(c, run[j - 1], pk, u, w, p);
    }
  }

  // ----- what a process notes about itself, and when it stops

  /** Whoever announces EMPTY has noted itself, so its loops see notes from then on. */
  predicate SelfNoted(st: State, t: Option<Task>, v: Node) {
    && (st.forwardedEmpty ==> v in Informed(st))
    && (t.Some? && (t.value.EmptySent? || (t.value.AfterUpcall? && !t.value.direct)) ==> v in Informed(st))
  }

  lemma SelfNotedAfter(c: Config, st: State, pk: Packet)
    requires SelfNoted(st, if pk.Todo? then Some(pk.t) else None, MsgOf(pk).dst)
    ensures SelfNoted(Handled(c, st, pk).state, Handled(c, st, pk).next, MsgOf(pk).dst)
  {
    hide Enough;
  }

  ghost predicate AllSelfNoted(s: Sys) {
    && (forall v :: SelfNoted(StateOf(s, v), None, v))
    && (forall t :: Todo(t) in s.bag ==> SelfNoted(StateOf(s, t.m.dst), Some(t), t.m.dst))
  }

  lemma AllSelfNotedAfter(c: Config, s: Sys, pk: Packet)
    requires AllSelfNoted(s) && pk in s.bag
    ensures AllSelfNoted(Deliver(c, s, pk))
  {
    hide Handled, After, StateOf;
    var st := StateOf(s, MsgOf(pk).dst);
    AfterFacts(s, pk, Handled(c, st, pk), Deliver(c, s, pk));
    HandledKeeps(c, st, pk);
    NextKeepsDst(c, st, pk);
    SelfNotedAfter(c, st, pk);
  }

  /** In every state of every run a process that has sent EMPTY, or is to after a delivery on enough
      paths, has noted itself. */
  lemma {:induction false} AnnouncersNoteThemselves(c: Config, run: seq<Sys>, i: nat)
    requires Run(c, run) && i < |run|
    ensures AllSelfNoted(run[i])
  {
    hide AllSelfNoted, Deliver;
    if i == 0 {
      NobodyAnnounced(c);
    } else {
      AnnouncersNoteThemselves(c, run, i - 1);
      assert Step(c, run[i - 1], run[i - 1 + 1]);
      var pk: Packet :| StepOf(c, run[i - 1], pk, run[i]);
      AllSelfNotedAfter(c, run[i - 1], pk);
    }
  }

  lemma NobodyAnnounced(c: Config)
    ensures AllSelfNoted(Started(c))
  {
  }

  /** A detour through its own sender, known to be done, is dropped unread; so is everything once the
      process is done; and a loop that ends after the delivery does nothing more. */
  lemma WhatIsDropped(c: Config, st: State, m: Msg, live: bool)
    ensures m.src in Informed(st) && m.src in m.path && (m.src != m.source || st.delivered) ==>
              LeavesAlone(st, Handled(c, st, Wire(m)))
    ensures Finished(st) ==> LeavesAlone(st, Handled(c, st, Wire(m)))
    ensures st.delivered ==> LeavesAlone(st, Handled(c, st, Todo(Relay(m, [], live))))
  {
    hide Enough;
  }

  predicate LeavesAlone(st: State, r: Result) {
    r.state == st && r.sends == {} && r.next == None && !r.upcall
  }
}
