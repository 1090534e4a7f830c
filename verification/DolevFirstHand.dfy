/** Which processes an optimized Dolev broadcast is sure to reach: for any fault budget above zero,
    those the source sends to first hand and no others. */
module DolevFirstHand {
  import opened Base
  import opened Ordering
  import opened Topology
  import opened DisjointSearch
  import opened Dolev
  import opened DolevEvidence
  import opened DolevSpread
  import opened DolevVerdict
  import opened DolevTermination
  import opened DolevCutoff

  // ----- one path is never enough

  lemma SecondVertex(p: Path, source: Node, v: Node, q: Path)
    requires WellShaped(p, source, v) && p[0] == source && IsPath(UnionGraph([p], source, v), q, source, v)
    ensures q[1] == FullPath(p, source, v)[2]
  {
    var g, full := UnionGraph([p], source, v), FullPath(p, source, v);
    assert Adjacent(g, q[0], q[1]) && q[1] != q[0];
    forall e: Edge | e in g && (e.a == source || e.b == source) && e.a != e.b
      ensures e == Edge(source, full[2])
    {
      var i := UnionOnly([p], source, v, e);
      var j := WalkOnly(full, e);
      OnlyInFront(p, source, v, j);
    }
  }

  lemma OnlyInFront(p: Path, source: Node, v: Node, j: nat)
    requires WellShaped(p, source, v) && p[0] == source && j < |FullPath(p, source, v)| - 1
    requires var full := FullPath(p, source, v); full[j] != full[j + 1] && (full[j] == source || full[j + 1] == source)
    ensures j == 1
  {
    var full := FullPath(p, source, v);
    assert forall i :: 0 <= i < |p| ==> full[i + 1] == p[i];
    assert forall i :: 0 < i < |p| ==> p[i] != p[0];
    assert full[|p| + 1] == v;
  }

  /** All paths of the graph one recorded path spans begin alike. */
  lemma OnePathIsNotTwo(p: Path, source: Node, v: Node)
    requires WellShaped(p, source, v) && p[0] == source
    ensures !DisjointPaths(UnionGraph([p], source, v), source, v, 2)
  {
    hide UnionGraph, IsPath;
    var g, x := UnionGraph([p], source, v), FullPath(p, source, v)[2];
    forall ps: seq<Path> | |ps| == 2 && IsPath(g, ps[0], source, v) && IsPath(g, ps[1], source, v)
      ensures ps[0] == ps[1] || !(Inner(ps[0], source, v) !! Inner(ps[1], source, v))
    {
      SecondVertex(p, source, v, ps[0]);
      SecondVertex(p, source, v, ps[1]);
      BeginAlike(g, ps[0], ps[1], source, v, x);
    }
  }

  lemma BeginAlike(g: Graph, a: Path, b: Path, source: Node, v: Node, x: Node)
    requires IsPath(g, a, source, v) && IsPath(g, b, source, v) && a[1] == b[1] == x
    ensures a == b || !(Inner(a, source, v) !! Inner(b, source, v))
  {
    if x == v {
      assert |a| == 2 && |b| == 2;
    } else {
      assert x in Inner(a, source, v) && x in Inner(b, source, v);
    }
  }

  lemma FewerPaths(g: Graph, s: Node, t: Node, k: nat)
    requires DisjointPaths(g, s, t, k) && k >= 2
    ensures DisjointPaths(g, s, t, 2)
  {
    hide IsPath, Inner;
    var ps: seq<Path> :| |ps| == k && AreDisjoint(g, s, t, ps);
    assert AreDisjoint(g, s, t, ps[..2]);
  }

  lemma OnePathFails(c: Config, st: State, v: Node, p: Path)
    requires c.f >= 1 && st.paths == [p] && Genuine(c, p, v)
    ensures !Passes(c, st, v)
  {
    hide UnionGraph, IsPath;
    assert WellShaped(p, c.source, v) by { GenuineIsWellShaped(c, p, v); }
    OnePathIsNotTwo(p, c.source, v);
    if DisjointPaths(UnionGraph([p], c.source, v), c.source, v, c.f + 1) {
      FewerPaths(UnionGraph([p], c.source, v), c.source, v, c.f + 1);
    }
  }

  lemma GenuineIsWellShaped(c: Config, p: Path, v: Node)
    requires Genuine(c, p, v)
    ensures WellShaped(p, c.source, v) && p[0] == c.source
  {
    assert p[0] in p;
  }

  // ----- whoever has recorded a path announces EMPTY in the end

  /** |v| has announced EMPTY, or something of its own is still suspended. */
  ghost predicate Busy(s: Sys, v: Node) {
    StateOf(s, v).paths != [] ==> StateOf(s, v).forwardedEmpty || exists t :: Todo(t) in s.bag && t.m.dst == v
  }

  lemma BusyOn(c: Config, st: State, pk: Packet)
    ensures var r := Handled(c, st, pk);
            && (r.state.paths != st.paths ==> r.next.Some?)
            && (pk.Todo? ==> r.state.forwardedEmpty || r.next.Some? || (st.delivered && pk.t.Relay?))
  {
    hide Enough;
  }

  lemma BusyAfter(c: Config, s: Sys, pk: Packet, v: Node)
    requires pk in s.bag && Busy(s, v) && Owed(s, v)
    ensures Busy(Deliver(c, s, pk), v)
  {
    hide Handled, After, StateOf;
    var st, s' := StateOf(s, MsgOf(pk).dst), Deliver(c, s, pk);
    var r := Handled(c, st, pk);
    AfterFacts(s, pk, r, s');
    AfterGives(s, pk, r);
    AfterKeeps(s, pk, r);
    HandledKeeps(c, st, pk);
    NextKeepsDst(c, st, pk);
    BusyOn(c, st, pk);
    if !StateOf(s', v).forwardedEmpty && StateOf(s', v).paths != [] && !(v == MsgOf(pk).dst && r.next.Some?) {
      if v == MsgOf(pk).dst && pk.Todo? {
        var t :| Todo(t) in s.bag && IsAnnouncing(t, v);
        assert Todo(t) in s'.bag;
      } else {
        var t :| Todo(t) in s.bag && t.m.dst == v;
        assert Todo(t) in s'.bag;
      }
    }
  }

  lemma {:induction false} RunKeepsBusy(c: Config, run: seq<Sys>, v: Node)
    requires Legal(c) && Run(c, run) && v in c.nodes && v != c.source
    ensures Busy(run[|run| - 1], v)
  {
    hide Busy, SpreadInv, Deliver, Legal;
    var n := |run| - 1;
    if n == 0 {
      NobodyBusy(c, v);
    } else {
      assert Run(c, run[..n]);
      RunKeepsBusy(c, run[..n], v);
      RunKeepsSpread(c, run[..n]);
      OwedIn(c, run[n - 1], v);
      assert Step(c, run[n - 1], run[n]);
      var pk: Packet :| StepOf(c, run[n - 1], pk, run[n]);
      BusyAfter(c, run[n - 1], pk, v);
    }
  }

  lemma NobodyBusy(c: Config, v: Node)
    ensures Busy(Started(c), v)
  {
  }

  lemma OwedIn(c: Config, s: Sys, v: Node)
    requires SpreadInv(c, s) && v in c.nodes && v != c.source
    ensures Owed(s, v)
  {
  }

  // ----- handling one message at a time

  /** No handler is suspended. */
  ghost predicate Calm(s: Sys) { forall pk :: pk in s.bag ==> pk.Wire? }

  /** |v| has recorded nothing and nothing on its way to it would make it. */
  ghost predicate Unheard(c: Config, s: Sys, v: Node) {
    && StateOf(s, v).paths == [] && !StateOf(s, v).delivered
    && forall m :: Wire(m) in s.bag && m.dst == v ==> Harmless(c, StateOf(s, v), m, v)
  }

  function Relayed(c: Config, m: Msg, v: Node): Msg { Msg(m.dst, v, c.source, m.path + [m.src]) }

  /** Another process is handling |m|; to |v| it sends at most the longer path. */
  ghost predicate Settling(c: Config, s: Sys, m: Msg, v: Node) {
    && StateOf(s, v).paths == [] && !StateOf(s, v).delivered && m.dst != v
    && (forall t :: Todo(t) in s.bag ==> t.m == m)
    && forall x :: Wire(x) in s.bag && x.dst == v ==> x == Relayed(c, m, v) || Harmless(c, StateOf(s, v), x, v)
  }

  lemma SendsToOne(c: Config, st: State, pk: Packet, far: State, v: Node)
    requires PacketOk(c, pk)
    ensures forall x :: x in Handled(c, st, pk).sends && x.dst == v ==>
              x == Relayed(c, MsgOf(pk), v) || Harmless(c, far, x, v)
  {
    hide Enough, SimpleWalk;
  }

  lemma SettlingOn(c: Config, s: Sys, pk: Packet, v: Node)
    requires Inv(c, s) && pk in s.bag && MsgOf(pk).dst != v
    requires (Calm(s) && Unheard(c, s, v)) || Settling(c, s, MsgOf(pk), v)
    ensures Settling(c, Deliver(c, s, pk), MsgOf(pk), v)
  {
    hide Inv, Handled, After, StateOf, Harmless, PacketOk;
    var st, s' := StateOf(s, MsgOf(pk).dst), Deliver(c, s, pk);
    assert PacketOk(c, pk) by { InInv(c, s, pk); }
    AfterFacts(s, pk, Handled(c, st, pk), s');
    NextKeepsDst(c, st, pk);
    SendsToOne(c, st, pk, StateOf(s, v), v);
  }

  /** The handler runs to its end. */
  lemma {:induction false} Settle(c: Config, run: seq<Sys>, m: Msg, v: Node) returns (longer: seq<Sys>)
    requires Legal(c) && Acquainted(c) && Run(c, run) && Settling(c, run[|run| - 1], m, v)
    ensures Run(c, longer) && Settling(c, longer[|longer| - 1], m, v) && Calm(longer[|longer| - 1])
    ensures Measure(c, longer[|longer| - 1]) <= Measure(c, run[|run| - 1])
    decreases Measure(c, run[|run| - 1])
  {
    hide Inv, Deliver, Measure, Run, Legal, Acquainted, Settling;
    assert run != [] by { RunIsNonempty(c, run); }
    var s := run[|run| - 1];
    longer := run;
    if pk :| pk in s.bag && pk.Todo? {
      RunKeepsInv(c, run);
      DeliverConsumes(c, s, pk);
      TaskIsFor(c, s, m, v, pk);
      SettlingOn(c, s, pk, v);
      ExtendRun(c, run, pk);
      longer := Settle(c, run + [Deliver(c, s, pk)], m, v);
    }
  }

  lemma TaskIsFor(c: Config, s: Sys, m: Msg, v: Node, pk: Packet)
    requires Settling(c, s, m, v) && pk in s.bag && pk.Todo?
    ensures MsgOf(pk) == m && m.dst != v
  {
  }

  // ----- the one path that reaches |v|

  /** |v| is handling its only path. */
  ghost predicate Hearing(c: Config, s: Sys, v: Node, p: Path) {
    && StateOf(s, v).paths == [p] && !StateOf(s, v).delivered
    && (forall t :: Todo(t) in s.bag ==> t.m.dst == v && !Reopens(t))
    && forall x :: Wire(x) in s.bag && x.dst == v ==> Harmless(c, StateOf(s, v), x, v)
  }

  lemma OnePathIn(c: Config, s: Sys, v: Node, p: Path)
    requires Inv(c, s) && v in c.nodes && c.f >= 1 && StateOf(s, v).paths == [p]
    ensures !Passes(c, StateOf(s, v), v)
  {
    hide Passes, Genuine, Evidence, PacketOk, StateOf;
    assert StateOk(c, StateOf(s, v), v);
    assert p in StateOf(s, v).paths;
    OnePathFails(c, StateOf(s, v), v, p);
  }

  lemma HearingOn(c: Config, s: Sys, pk: Packet, v: Node, p: Path)
    requires Legal(c) && Inv(c, s) && v in c.nodes && c.f >= 1
    requires Hearing(c, s, v, p) && pk in s.bag && pk.Todo?
    ensures Hearing(c, Deliver(c, s, pk), v, p)
  {
    hide Inv, Handled, After, StateOf, Harmless, PacketOk, Passes, Reopens;
    var st, s' := StateOf(s, v), Deliver(c, s, pk);
    var r := Handled(c, st, pk);
    assert PacketOk(c, pk) by { InInv(c, s, pk); }
    OnePathIn(c, s, v, p);
    OwnStep(c, st, pk, v);
    NextKeepsDst(c, st, pk);
    SendsGoElsewhere(c, s, pk);
    AfterFacts(s, pk, r, s');
    forall x | Wire(x) in s'.bag && x.dst == v
      ensures Harmless(c, r.state, x, v)
    {
      HarmlessByPaths(c, st, r.state, x, v);
    }
  }

  lemma {:induction false} HearOut(c: Config, run: seq<Sys>, v: Node, p: Path) returns (longer: seq<Sys>)
    requires Legal(c) && Acquainted(c) && Run(c, run) && v in c.nodes && c.f >= 1 && Hearing(c, run[|run| - 1], v, p)
    ensures Run(c, longer) && Hearing(c, longer[|longer| - 1], v, p) && Calm(longer[|longer| - 1])
    decreases Measure(c, run[|run| - 1])
  {
    hide Inv, Deliver, Measure, Run, Legal, Acquainted, Hearing;
    assert run != [] by { RunIsNonempty(c, run); }
    var s := run[|run| - 1];
    longer := run;
    if pk :| pk in s.bag && pk.Todo? {
      RunKeepsInv(c, run);
      DeliverConsumes(c, s, pk);
      HearingOn(c, s, pk, v, p);
      ExtendRun(c, run, pk);
      longer := HearOut(c, run + [Deliver(c, s, pk)], v, p);
    }
  }

  /** The message that is not harmless is recorded as the only path. */
  lemma RecordsIt(c: Config, st: State, x: Msg, v: Node)
    requires Accepted(c, x) && x.dst == v && x.path != [] && st.paths == [] && !st.delivered
    ensures var r := Handled(c, st, Wire(x));
            && r.state.paths == [x.path + [x.src]] && !r.state.delivered && r.sends == {}
            && (r.next.Some? ==> !Reopens(r.next.value))
  {
    hide SimpleWalk;
    DetourRuleIsIdle(c, x);
    assert [] + [x.path + [x.src]] == [x.path + [x.src]];
  }

  lemma BeginsHearing(c: Config, s: Sys, m: Msg, v: Node)
    requires Legal(c) && Inv(c, s) && v in c.nodes && v != c.source && Calm(s) && Settling(c, s, m, v)
    requires Wire(Relayed(c, m, v)) in s.bag && !Harmless(c, StateOf(s, v), Relayed(c, m, v), v)
    ensures Hearing(c, Deliver(c, s, Wire(Relayed(c, m, v))), v, m.path + [m.src] + [m.dst])
  {
    hide Inv, Handled, After, StateOf, SimpleWalk;
    var x := Relayed(c, m, v);
    var st, s' := StateOf(s, v), Deliver(c, s, Wire(x));
    var r := Handled(c, st, Wire(x));
    assert Honest(c, x) by { InInv(c, s, Wire(x)); }
    RecordsIt(c, st, x, v);
    NextKeepsDst(c, st, Wire(x));
    AfterFacts(s, Wire(x), r, s');
  }

  // ----- its EMPTY closes every door

  ghost predicate Announced(c: Config, s: Sys, v: Node, p: Path) {
    Hearing(c, s, v, p) && Calm(s) && StateOf(s, v).forwardedEmpty
  }

  lemma EmptyIsQuiet(c: Config, st: State, v: Node, q: Node)
    requires v != c.source
    ensures var r := Handled(c, st, Empty(c, v, q)); r.sends == {} && r.next == None
  {
  }

  lemma EmptyHeard(c: Config, s: Sys, v: Node, p: Path, q: Node)
    requires Inv(c, s) && Announced(c, s, v, p) && v != c.source && Empty(c, v, q) in s.bag
    ensures Announced(c, Deliver(c, s, Empty(c, v, q)), v, p)
  {
    hide Inv, Handled, After, StateOf, Harmless, SimpleWalk;
    var st, s' := StateOf(s, q), Deliver(c, s, Empty(c, v, q));
    assert Honest(c, Empty(c, v, q).m) by { InInv(c, s, Empty(c, v, q)); }
    EmptyIsQuiet(c, st, v, q);
    AfterFacts(s, Empty(c, v, q), Handled(c, st, Empty(c, v, q)), s');
  }

  lemma {:induction false} AnnounceAll(c: Config, run: seq<Sys>, v: Node, p: Path) returns (longer: seq<Sys>)
    requires Legal(c) && Acquainted(c) && Run(c, run) && v in c.nodes && v != c.source
    requires Announced(c, run[|run| - 1], v, p)
    ensures Run(c, longer) && Announced(c, longer[|longer| - 1], v, p)
    ensures forall q :: Empty(c, v, q) !in longer[|longer| - 1].bag
    decreases Measure(c, run[|run| - 1])
  {
    hide Inv, Deliver, Measure, Run, Legal, Acquainted, Announced;
    assert run != [] by { RunIsNonempty(c, run); }
    var s := run[|run| - 1];
    longer := run;
    if q :| Empty(c, v, q) in s.bag {
      RunKeepsInv(c, run);
      DeliverConsumes(c, s, Empty(c, v, q));
      EmptyHeard(c, s, v, p, q);
      ExtendRun(c, run, Empty(c, v, q));
      longer := AnnounceAll(c, run + [Deliver(c, s, Empty(c, v, q))], v, p);
    }
  }

  lemma DoorIsClosed(c: Config, s: Sys, v: Node, p: Path, w: Node)
    requires Acquainted(c) && SpreadInv(c, s) && Announced(c, s, v, p) && v in c.nodes && v != c.source
    requires (forall q :: Empty(c, v, q) !in s.bag) && w in c.nodes && w != v
    ensures Closed(c, s, w, v)
  {
    hide StateOf, Owed, Passed, Informed, Harmless;
    if w in NbrsOf(c.nbrs, v) {
      assert w in Elems(PeersOf(c, v));
      assert Reachable(c, v, w);
      assert Spread(c, s, v, w);
      assert Empty(c, v, w) !in s.bag;
    }
  }

  lemma AllDoorsClosed(c: Config, s: Sys, v: Node, p: Path)
    requires Acquainted(c) && Inv(c, s) && SpreadInv(c, s) && Announced(c, s, v, p) && v in c.nodes
    requires v != c.source && c.f >= 1
    requires forall q :: Empty(c, v, q) !in s.bag
    ensures CutOff(c, s, v)
  {
    hide StateOf, Inv, SpreadInv, Harmless, Passes, Closed;
    OnePathIn(c, s, v, p);
    forall w | w in c.nodes && w != v
      ensures Closed(c, s, w, v) && Idling(c, s, w, v)
    {
      DoorIsClosed(c, s, v, p, w);
    }
  }

  /** From the message that is not harmless on: |v| is cut off. */
  lemma HearsAndIsCutOff(c: Config, run: seq<Sys>, m: Msg, v: Node) returns (longer: seq<Sys>)
    requires Legal(c) && Acquainted(c) && Run(c, run) && v in c.nodes && v != c.source && c.f >= 1
    requires Calm(run[|run| - 1]) && Settling(c, run[|run| - 1], m, v)
    requires Wire(Relayed(c, m, v)) in run[|run| - 1].bag
    requires !Harmless(c, StateOf(run[|run| - 1], v), Relayed(c, m, v), v)
    ensures Run(c, longer) && CutOff(c, longer[|longer| - 1], v)
  {
    hide Inv, Deliver, Run, Legal, Acquainted, Settling, Hearing, Harmless, StateOf, CutOff, SpreadInv, Busy;
    assert run != [] by { RunIsNonempty(c, run); }
    var s, x, p := run[|run| - 1], Wire(Relayed(c, m, v)), m.path + [m.src] + [m.dst];
    RunKeepsInv(c, run);
    BeginsHearing(c, s, m, v);
    ExtendRun(c, run, x);
    var heard := HearOut(c, run + [Deliver(c, s, x)], v, p);
    assert heard != [] by { RunIsNonempty(c, heard); }
    RunKeepsBusy(c, heard, v);
    HeardIsAnnounced(c, heard[|heard| - 1], v, p);
    longer := AnnounceAll(c, heard, v, p);
    RunKeepsInv(c, longer);
    RunKeepsSpread(c, longer);
    assert longer != [] by { RunIsNonempty(c, longer); }
    AllDoorsClosed(c, longer[|longer| - 1], v, p);
  }

  lemma HeardIsAnnounced(c: Config, s: Sys, v: Node, p: Path)
    requires Hearing(c, s, v, p) && Calm(s) && Busy(s, v)
    ensures Announced(c, s, v, p)
  {
    hide StateOf, Harmless;
    assert forall t :: Todo(t) !in s.bag;
  }

  // ----- the whole run

  /** The next message is handled to the end: |v| is as before, or a path is on its way to it. */
  lemma OneMessage(c: Config, run: seq<Sys>, pk: Packet, v: Node) returns (longer: seq<Sys>)
    requires Legal(c) && Acquainted(c) && Run(c, run) && Calm(run[|run| - 1]) && Unheard(c, run[|run| - 1], v)
    requires pk in run[|run| - 1].bag && MsgOf(pk).dst != v
    ensures Run(c, longer) && Calm(longer[|longer| - 1]) && Settling(c, longer[|longer| - 1], MsgOf(pk), v)
    ensures Measure(c, longer[|longer| - 1]) < Measure(c, run[|run| - 1])
  {
    hide Inv, Deliver, Run, Legal, Acquainted, Settling, Unheard, Calm, Measure;
    assert run != [] by { RunIsNonempty(c, run); }
    var s := run[|run| - 1];
    RunKeepsInv(c, run);
    DeliverConsumes(c, s, pk);
    SettlingOn(c, s, pk, v);
    ExtendRun(c, run, pk);
    longer := Settle(c, run + [Deliver(c, s, pk)], MsgOf(pk), v);
  }

  /** A harmless message changes nothing for |v|. */
  lemma OwnMessage(c: Config, s: Sys, pk: Packet, v: Node)
    requires Legal(c) && Inv(c, s) && Calm(s) && Unheard(c, s, v) && pk in s.bag && MsgOf(pk).dst == v
    ensures Calm(Deliver(c, s, pk)) && Unheard(c, Deliver(c, s, pk), v)
  {
    hide Inv, Handled, After, StateOf, Harmless, PacketOk, Passes;
    var st, s' := StateOf(s, v), Deliver(c, s, pk);
    var r := Handled(c, st, pk);
    assert PacketOk(c, pk) by { InInv(c, s, pk); }
    NothingPasses(c, st, v);
    OwnStep(c, st, pk, v);
    HarmlessEnds(c, st, pk.m, v);
    AfterFacts(s, pk, r, s');
    forall x | Wire(x) in s'.bag && x.dst == v
      ensures Harmless(c, r.state, x, v)
    {
      HarmlessByPaths(c, st, r.state, x, v);
    }
  }

  lemma NothingPasses(c: Config, st: State, v: Node)
    requires st.paths == []
    ensures !Passes(c, st, v)
  {
  }

  lemma HarmlessEnds(c: Config, st: State, m: Msg, v: Node)
    requires PacketOk(c, Wire(m)) && m.dst == v && Harmless(c, st, m, v) && st.paths == [] && !st.delivered
    ensures Handled(c, st, Wire(m)).next == None && Handled(c, st, Wire(m)).sends == {}
  {
    hide SimpleWalk;
  }

  lemma StillUnheard(c: Config, s: Sys, m: Msg, v: Node)
    requires Settling(c, s, m, v)
    requires Wire(Relayed(c, m, v)) !in s.bag || Harmless(c, StateOf(s, v), Relayed(c, m, v), v)
    ensures Unheard(c, s, v)
  {
    hide StateOf, Harmless;
  }

  lemma UnheardIsUndelivered(c: Config, s: Sys, v: Node)
    requires Unheard(c, s, v)
    ensures !StateOf(s, v).delivered
  {
  }

  /** A run in which |v| has heard nothing yet can be carried on so that it never delivers. */
  lemma {:induction false} Starve(c: Config, run: seq<Sys>, v: Node) returns (longer: seq<Sys>)
    requires Legal(c) && Acquainted(c) && Run(c, run) && v in c.nodes && v != c.source && c.f >= 1
    requires Calm(run[|run| - 1]) && Unheard(c, run[|run| - 1], v)
    ensures AtRest(c, longer) && !StateOf(longer[|longer| - 1], v).delivered
    decreases Measure(c, run[|run| - 1]), 0
  {
    hide Inv, Deliver, Run, Legal, Acquainted, Settling, Unheard, Calm, Measure, CutOff, StateOf, Harmless;
    assert run != [] by { RunIsNonempty(c, run); }
    var s := run[|run| - 1];
    if s.bag == multiset{} {
      longer := run;
      UnheardIsUndelivered(c, s, v);
    } else {
      var pk :| pk in s.bag;
      if MsgOf(pk).dst == v {
        RunKeepsInv(c, run);
        DeliverConsumes(c, s, pk);
        OwnMessage(c, s, pk, v);
        ExtendRun(c, run, pk);
        longer := Starve(c, run + [Deliver(c, s, pk)], v);
      } else {
        var next := OneMessage(c, run, pk, v);
        longer := StarveAfter(c, next, MsgOf(pk), v);
      }
    }
  }

  lemma {:induction false} StarveAfter(c: Config, run: seq<Sys>, m: Msg, v: Node) returns (longer: seq<Sys>)
    requires Legal(c) && Acquainted(c) && Run(c, run) && v in c.nodes && v != c.source && c.f >= 1
    requires Calm(run[|run| - 1]) && Settling(c, run[|run| - 1], m, v)
    ensures AtRest(c, longer) && !StateOf(longer[|longer| - 1], v).delivered
    decreases Measure(c, run[|run| - 1]), 1
  {
    hide Inv, Deliver, Run, Legal, Acquainted, Settling, Unheard, Calm, Measure, CutOff, StateOf, Harmless;
    assert run != [] by { RunIsNonempty(c, run); }
    var s, x := run[|run| - 1], Relayed(c, m, v);
    if Wire(x) in s.bag && !Harmless(c, StateOf(s, v), x, v) {
      var shut := HearsAndIsCutOff(c, run, m, v);
      assert shut != [] by { RunIsNonempty(c, shut); }
      longer := ExtendToRest(c, shut);
      assert longer[|shut| - 1] == longer[..|shut|][|shut| - 1] == shut[|shut| - 1];
      CutOffForGood(c, longer, |shut| - 1, |longer| - 1, v);
    } else {
      StillUnheard(c, s, m, v);
      longer := Starve(c, run, v);
    }
  }

  lemma StartIsUnheard(c: Config, v: Node)
    requires Legal(c) && v in c.nodes && v != c.source && !FirstHand(c, v)
    ensures Calm(Started(c)) && Unheard(c, Started(c), v)
  {
    hide FirstTargets;
  }

  lemma StartRun(c: Config)
    ensures Run(c, [Started(c)])
  {
  }

  ghost predicate DeliversAtRest(c: Config, run: seq<Sys>, v: Node) {
    AtRest(c, run) ==> StateOf(run[|run| - 1], v).delivered
  }

  /** For any topology, any silent processes and any fault budget above zero: a process is sure to
      deliver exactly when the source sends to it first hand and it takes part and listens. However
      many disjoint paths lead to any other, some run comes to rest without it. */
  lemma SureDeliveryExactly(c: Config, v: Node)
    requires Legal(c) && Acquainted(c) && c.f >= 1 && v in c.nodes && v != c.source
    ensures (forall run: seq<Sys> :: DeliversAtRest(c, run, v)) <==> FirstHand(c, v)
  {
    hide Run, Legal, Acquainted, FirstHand, StateOf, Started, Calm, Unheard;
    if FirstHand(c, v) {
      forall run: seq<Sys>
        ensures DeliversAtRest(c, run, v)
      {
        if AtRest(c, run) {
          NeighboursDeliver(c, run, v);
        }
      }
    } else {
      StartRun(c);
      StartIsUnheard(c, v);
      var run := Starve(c, [Started(c)], v);
      assert !DeliversAtRest(c, run, v);
    }
  }
}
