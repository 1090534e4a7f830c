/** How a process is cut off from an optimized Dolev broadcast for good: once every process that
    could relay to it believes it is done, or is done itself, it will never deliver. */
module DolevCutoff {
  import opened Base
  import opened Ordering
  import opened Topology
  import opened Dolev
  import opened DolevEvidence
  import opened DolevSpread
  import opened DolevVerdict

  /** |v| takes nothing from |w|, whatever |w| does. */
  predicate Apart(c: Config, w: Node, v: Node) {
    v in c.silent || w !in NbrsOf(c.nbrs, v) || v !in NbrsOf(c.nbrs, w)
  }

  /** A message to |v| that cannot add to the paths it has recorded. */
  predicate Harmless(c: Config, st: State, m: Msg, v: Node) {
    || v in c.silent || m.src !in NbrsOf(c.nbrs, v)
    || (m.src != c.source && (m.path == [] || m.path + [m.src] in st.paths))
  }

  /** The rest of a handler that will still record and relay its message. */
  predicate Reopens(t: Task) { (t.AfterUpcall? || t.EmptySent?) && t.direct }

  /** A relaying loop of |w| that has nothing for |v|. */
  predicate Pointless(c: Config, st: State, t: Task, w: Node, far: State, v: Node)
    requires t.Relay?
  {
    || Apart(c, w, v) || v !in t.rest || v in t.m.path + [t.m.src]
    || (t.live && v in Informed(st)) || t.m.path + [t.m.src] + [w] in far.paths
  }

  /** |w| never again begins to relay to |v|. */
  ghost predicate Closed(c: Config, s: Sys, w: Node, v: Node) {
    || w in c.silent || w == c.source || Apart(c, w, v) || v in Informed(StateOf(s, w))
    || (Finished(StateOf(s, w)) && forall t :: Todo(t) in s.bag && t.m.dst == w ==> !Reopens(t))
  }

  ghost predicate Idling(c: Config, s: Sys, w: Node, v: Node) {
    forall t :: Todo(t) in s.bag && t.m.dst == w && t.Relay? ==> Pointless(c, StateOf(s, w), t, w, StateOf(s, v), v)
  }

  /** |v| has not enough, nothing useful is on its way to it, and nobody will send it any more. */
  ghost predicate CutOff(c: Config, s: Sys, v: Node) {
    && !StateOf(s, v).delivered && !Passes(c, StateOf(s, v), v)
    && (forall m :: Wire(m) in s.bag && m.dst == v ==> Harmless(c, StateOf(s, v), m, v))
    && (forall t :: Todo(t) in s.bag && t.m.dst == v ==> !Reopens(t))
    && (forall w :: w in c.nodes && w != v ==> Closed(c, s, w, v) && Idling(c, s, w, v))
  }

  // ----- what the process itself does

  /** A harmless message or a task that does not reopen leaves its paths as they are. */
  lemma OwnStep(c: Config, st: State, pk: Packet, v: Node)
    requires PacketOk(c, pk) && MsgOf(pk).dst == v && !st.delivered && !Passes(c, st, v)
    requires pk.Wire? ==> Harmless(c, st, pk.m, v)
    requires pk.Todo? ==> !Reopens(pk.t)
    ensures var r := Handled(c, st, pk);
            r.state.paths == st.paths && !r.state.delivered && (r.next.Some? ==> !Reopens(r.next.value))
  {
    hide Enough, SimpleWalk;
  }

  // ----- what another process does

  /** It sends |v| nothing but harmless messages. */
  lemma OtherSends(c: Config, st: State, pk: Packet, far: State, v: Node)
    requires PacketOk(c, pk) && MsgOf(pk).dst != v
    requires pk.Todo? && pk.t.Relay? ==> Pointless(c, st, pk.t, MsgOf(pk).dst, far, v)
    ensures forall m :: m in Handled(c, st, pk).sends && m.dst == v ==> Harmless(c, far, m, v)
  {
    hide Enough, SimpleWalk;
  }

  lemma NextKeepsDst(c: Config, st: State, pk: Packet)
    ensures var r := Handled(c, st, pk);
            r.next.Some? ==> r.next.value.m == MsgOf(pk)
  {
    hide Enough;
  }

  /** A relaying loop begins with the peers only if a message was handled to the end. */
  lemma NextRelay(c: Config, st: State, pk: Packet, far: State, v: Node)
    requires PacketOk(c, pk) && MsgOf(pk).dst != v
    requires Apart(c, MsgOf(pk).dst, v) || v in Informed(st) || (Finished(st) && (pk.Todo? ==> !Reopens(pk.t)))
    requires pk.Todo? && pk.t.Relay? ==> Pointless(c, st, pk.t, MsgOf(pk).dst, far, v)
    ensures var r := Handled(c, st, pk);
            r.next.Some? && r.next.value.Relay? ==> Pointless(c, r.state, r.next.value, MsgOf(pk).dst, far, v)
  {
    hide Enough, SimpleWalk;
    HandledKeeps(c, st, pk);
  }

  lemma FinishedStaysShut(c: Config, st: State, pk: Packet)
    requires Finished(st) && (pk.Todo? ==> !Reopens(pk.t))
    ensures var r := Handled(c, st, pk); r.next.Some? ==> !Reopens(r.next.value)
  {
    hide Enough;
  }

  // ----- one step

  lemma HarmlessByPaths(c: Config, st: State, st': State, m: Msg, v: Node)
    requires st.paths == st'.paths
    ensures Harmless(c, st, m, v) == Harmless(c, st', m, v)
  {
  }

  lemma PointlessByPaths(c: Config, st: State, t: Task, w: Node, far: State, far': State, v: Node)
    requires t.Relay? && far.paths == far'.paths
    ensures Pointless(c, st, t, w, far, v) == Pointless(c, st, t, w, far', v)
  {
  }

  /** A step of |v| itself. */
  lemma AfterOwnStep(c: Config, s: Sys, pk: Packet, v: Node)
    requires Legal(c) && Inv(c, s) && CutOff(c, s, v) && pk in s.bag && MsgOf(pk).dst == v
    ensures CutOff(c, Deliver(c, s, pk), v)
  {
    hide Inv, Handled, After, Harmless, Pointless, Reopens, StateOf, Passes, Finished, Apart;
    var st, s' := StateOf(s, v), Deliver(c, s, pk);
    var r := Handled(c, st, pk);
    assert PacketOk(c, pk) by { InInv(c, s, pk); }
    OwnStep(c, st, pk, v);
    NextKeepsDst(c, st, pk);
    SendsGoElsewhere(c, s, pk);
    AfterFacts(s, pk, r, s');
    PassesByPaths(c, st, r.state, v);
    forall m | Wire(m) in s'.bag && m.dst == v
      ensures Harmless(c, r.state, m, v)
    {
      HarmlessByPaths(c, st, r.state, m, v);
    }
    forall w | w in c.nodes && w != v
      ensures Closed(c, s', w, v) && Idling(c, s', w, v)
    {
      assert Closed(c, s, w, v) && Idling(c, s, w, v);
      forall t | Todo(t) in s'.bag && t.m.dst == w && t.Relay?
        ensures Pointless(c, StateOf(s', w), t, w, StateOf(s', v), v)
      {
        PointlessByPaths(c, StateOf(s, w), t, w, st, r.state, v);
      }
    }
  }

  lemma InInv(c: Config, s: Sys, pk: Packet)
    requires Inv(c, s) && pk in s.bag
    ensures PacketOk(c, pk)
  {
    hide PacketOk, StateOk;
  }

  lemma SendsGoElsewhere(c: Config, s: Sys, pk: Packet)
    requires Legal(c) && Inv(c, s) && pk in s.bag
    ensures var r := Handled(c, StateOf(s, MsgOf(pk).dst), pk);
            && (forall m :: m in r.sends ==> m.dst != MsgOf(pk).dst)
            && (r.next.Some? ==> MsgOf(pk).dst !in c.silent && MsgOf(pk).dst != c.source)
  {
    hide Handled, StateOk, PacketOk, SimpleWalk, StateOf;
    var st := StateOf(s, MsgOf(pk).dst);
    PacketDst(c, pk);
    HandledOk(c, st, pk);
    SendsAreMine(c, st, pk);
  }

  // a step of another process

  lemma FarHarmless(c: Config, s: Sys, pk: Packet, v: Node, m: Msg)
    requires Legal(c) && Inv(c, s) && CutOff(c, s, v) && pk in s.bag && MsgOf(pk).dst != v
    requires Wire(m) in Deliver(c, s, pk).bag && m.dst == v
    ensures Harmless(c, StateOf(s, v), m, v)
  {
    hide Inv, Handled, After, Harmless, Pointless, StateOf, Passes, Closed, Reopens;
    var w, r := MsgOf(pk).dst, Handled(c, StateOf(s, MsgOf(pk).dst), pk);
    AfterFacts(s, pk, r, Deliver(c, s, pk));
    assert PacketOk(c, pk) by { InInv(c, s, pk); }
    assert w in c.nodes by { PacketDst(c, pk); }
    assert Idling(c, s, w, v);
    OtherSends(c, StateOf(s, w), pk, StateOf(s, v), v);
  }

  lemma FarClosed(c: Config, s: Sys, pk: Packet, v: Node, w: Node)
    requires Legal(c) && Inv(c, s) && CutOff(c, s, v) && pk in s.bag && MsgOf(pk).dst != v && w in c.nodes && w != v
    ensures Closed(c, Deliver(c, s, pk), w, v)
  {
    hide Inv, Handled, After, Harmless, Pointless, StateOf, Passes, Idling, Reopens, Apart;
    var x, s' := MsgOf(pk).dst, Deliver(c, s, pk);
    var r := Handled(c, StateOf(s, x), pk);
    AfterFacts(s, pk, r, s');
    assert Closed(c, s, w, v);
    HandledKeeps(c, StateOf(s, x), pk);
    NextKeepsDst(c, StateOf(s, x), pk);
    if w == x && Finished(StateOf(s, w)) && forall t :: Todo(t) in s.bag && t.m.dst == w ==> !Reopens(t) {
      FinishedStaysShut(c, StateOf(s, x), pk);
    }
  }

  lemma FarIdling(c: Config, s: Sys, pk: Packet, v: Node, w: Node)
    requires Legal(c) && Inv(c, s) && CutOff(c, s, v) && pk in s.bag && MsgOf(pk).dst != v && w in c.nodes && w != v
    ensures Idling(c, Deliver(c, s, pk), w, v)
  {
    hide Inv, Handled, After, Harmless, Pointless, StateOf, Passes, Reopens, Apart;
    var x, s' := MsgOf(pk).dst, Deliver(c, s, pk);
    var r := Handled(c, StateOf(s, x), pk);
    AfterFacts(s, pk, r, s');
    NextKeepsDst(c, StateOf(s, x), pk);
    assert Closed(c, s, w, v) && Idling(c, s, w, v);
    forall t | Todo(t) in s'.bag && t.m.dst == w && t.Relay?
      ensures Pointless(c, StateOf(s', w), t, w, StateOf(s', v), v)
    {
      if r.next == Some(t) {
        FarNext(c, s, pk, v, t);
      } else {
        HandledKeeps(c, StateOf(s, x), pk);
        PointlessLater(c, StateOf(s, w), StateOf(s', w), t, w, StateOf(s, v), v);
      }
    }
  }

  lemma PointlessLater(c: Config, st: State, st': State, t: Task, w: Node, far: State, v: Node)
    requires t.Relay? && Informed(st) <= Informed(st') && Pointless(c, st, t, w, far, v)
    ensures Pointless(c, st', t, w, far, v)
  {
  }

  lemma FarNext(c: Config, s: Sys, pk: Packet, v: Node, t: Task)
    requires Legal(c) && Inv(c, s) && CutOff(c, s, v) && pk in s.bag && MsgOf(pk).dst != v
    requires Handled(c, StateOf(s, MsgOf(pk).dst), pk).next == Some(t) && t.Relay?
    ensures Pointless(c, Handled(c, StateOf(s, MsgOf(pk).dst), pk).state, t, MsgOf(pk).dst, StateOf(s, v), v)
  {
    hide Inv, Handled, Harmless, Pointless, StateOf, Passes, Reopens, Apart, Finished;
    var w := MsgOf(pk).dst;
    assert PacketOk(c, pk) by { InInv(c, s, pk); }
    assert w in c.nodes by { PacketDst(c, pk); }
    SendsGoElsewhere(c, s, pk);
    assert Closed(c, s, w, v) && Idling(c, s, w, v);
    NextRelay(c, StateOf(s, w), pk, StateOf(s, v), v);
  }

  lemma AfterOtherStep(c: Config, s: Sys, pk: Packet, v: Node)
    requires Legal(c) && Inv(c, s) && CutOff(c, s, v) && pk in s.bag && MsgOf(pk).dst != v
    ensures CutOff(c, Deliver(c, s, pk), v)
  {
    hide Inv, Handled, After, Harmless, Reopens, StateOf, Passes, Closed, Idling;
    var s' := Deliver(c, s, pk);
    var r := Handled(c, StateOf(s, MsgOf(pk).dst), pk);
    AfterFacts(s, pk, r, s');
    NextKeepsDst(c, StateOf(s, MsgOf(pk).dst), pk);
    forall m | Wire(m) in s'.bag && m.dst == v
      ensures Harmless(c, StateOf(s', v), m, v)
    {
      FarHarmless(c, s, pk, v, m);
    }
    forall w | w in c.nodes && w != v
      ensures Closed(c, s', w, v) && Idling(c, s', w, v)
    {
      FarClosed(c, s, pk, v, w);
      FarIdling(c, s, pk, v, w);
    }
  }

  /** For any topology, budget and interleaving: a process that is cut off at some point of a run
      never delivers later in it. */
  lemma {:induction false} CutOffForGood(c: Config, run: seq<Sys>, i: nat, j: nat, v: Node)
    requires Legal(c) && Run(c, run) && i <= j < |run| && CutOff(c, run[i], v)
    ensures CutOff(c, run[j], v) && !StateOf(run[j], v).delivered
  {
    hide CutOff, Inv, Deliver, Started, StateOf, Legal;
    if i < j {
      CutOffForGood(c, run, i, j - 1, v);
      PrefixRun(c, run, j - 1);
      RunKeepsInv(c, run[..j]);
      assert Step(c, run[j - 1], run[j - 1 + 1]);
      var pk: Packet :| StepOf(c, run[j - 1], pk, run[j]);
      if MsgOf(pk).dst == v {
        AfterOwnStep(c, run[j - 1], pk, v);
      } else {
        AfterOtherStep(c, run[j - 1], pk, v);
      }
    }
    NotDelivered(c, run[j], v);
  }

  lemma PrefixRun(c: Config, run: seq<Sys>, i: nat)
    requires Run(c, run) && i < |run|
    ensures Run(c, run[..i + 1]) && run[..i + 1][|run[..i + 1]| - 1] == run[i]
  {
    hide Step, Started;
  }

  lemma NotDelivered(c: Config, s: Sys, v: Node)
    requires CutOff(c, s, v)
    ensures !StateOf(s, v).delivered
  {
  }
}
