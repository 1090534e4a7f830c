/** The startup and shutdown barrier of a node: its status, its monitor loop and its message
    handler, over links that may delay, reorder or lose messages. */
module Lifecycle {
  import opened Base

  datatype Status = NotStarted | KeySharing | Starting | Running | Stopping | Terminated

  datatype Notice = PubKey | Started | Finished

  /** What a node does that others, or its algorithm, can see. */
  datatype Deed = Broadcast(notice: Notice) | OnStart | OnExit

  /** Where the monitor loop is suspended. A waiting monitor is woken only by a change of status
      made after it began to wait. */
  datatype Monitor = Waiting(woken: bool) | SharingKeys | AwaitingRunning | InOnStart | AwaitingTerminated | Exited

  datatype Local = Local(status: Status, keys: set<Node>, peers: map<Node, Status>, at: Monitor)

  datatype Outcome = Outcome(local: Local, deeds: seq<Deed>)

  function StatusOf(l: Local, q: Node): Status {
    if q in l.peers then l.peers[q] else NotStarted
  }

  predicate AllPeers(l: Local, others: set<Node>, status: Status) {
    forall q :: q in others ==> StatusOf(l, q) == status
  }

  function WithStatus(l: Local, status: Status): Local {
    l.(status := status, at := if l.at.Waiting? then Waiting(true) else l.at)
  }

  /** One turn of the monitor loop, up to where it suspends. */
  function Entered(l: Local): Outcome {
    match l.status
    case NotStarted => Outcome(l.(at := Waiting(false)), [])
    case KeySharing => Outcome(l.(at := SharingKeys), [Broadcast(PubKey)])
    case Starting => Outcome(l.(at := AwaitingRunning), [Broadcast(Started)])
    case Running => Outcome(l.(at := InOnStart), [OnStart])
    case Stopping => Outcome(l.(at := AwaitingTerminated), [Broadcast(Finished)])
    case Terminated => Outcome(l.(at := Exited), [OnExit])
  }

  /** The suspended monitor looks again, and goes on when what it waits for has come. */
  function Advanced(l: Local, others: set<Node>): Outcome {
    match l.at
    case SharingKeys => if others <= l.keys then Entered(WithStatus(l, Starting)) else Outcome(l, [])
    case AwaitingRunning => if AllPeers(l, others, Running) then Entered(WithStatus(l, Running)) else Outcome(l, [])
    case AwaitingTerminated =>
      if AllPeers(l, others, Terminated) then Entered(WithStatus(l, Terminated)) else Outcome(l, [])
    case InOnStart => Outcome(l.(at := Waiting(false)), [])
    case Waiting(woken) => if woken then Entered(l) else Outcome(l, [])
    case Exited => Outcome(l, [])
  }

  /** A message from |from|; one from an unknown address is dropped. */
  function Handled(l: Local, others: set<Node>, from: Node, notice: Notice): Local {
    if from !in others then l
    else match notice
      case PubKey => l.(keys := l.keys + {from})
      case Started =>
        var l' := l.(peers := l.peers[from := Running]);
        if l'.status == Starting && AllPeers(l', others, Running) then WithStatus(l', Running) else l'
      case Finished =>
        var l' := l.(peers := l.peers[from := Terminated]);
        if l'.status == Stopping && AllPeers(l', others, Terminated) then WithStatus(l', Terminated) else l'
  }

  class LifecycleNode {
    const me: Node
    const others: set<Node>
    var status: Status
    var keys: set<Node>
    var peerStatus: map<Node, Status>
    var at: Monitor

    constructor (me: Node, others: set<Node>)
      ensures Value() == Idle(me) && this.me == me && this.others == others
    {
      this.me, this.others := me, others;
      status, keys, peerStatus, at := NotStarted, {me}, map[], Waiting(false);
    }

    ghost function Value(): Local
      reads this
    {
      Local(status, keys, peerStatus, at)
    }

    method SetStatus(next: Status)
      modifies this`status, this`at
      ensures Value() == WithStatus(old(Value()), next)
    {
      status := next;
      if at.Waiting? {
        at := Waiting(true);
      }
    }

    method Enter() returns (deeds: seq<Deed>)
      modifies this`at
      ensures Outcome(Value(), deeds) == Entered(old(Value()))
    {
      match status {
        case NotStarted => at, deeds := Waiting(false), [];
        case KeySharing => at, deeds := SharingKeys, [Broadcast(PubKey)];
        case Starting => at, deeds := AwaitingRunning, [Broadcast(Started)];
        case Running => at, deeds := InOnStart, [OnStart];
        case Stopping => at, deeds := AwaitingTerminated, [Broadcast(Finished)];
        case Terminated => at, deeds := Exited, [OnExit];
      }
    }

    method Advance() returns (deeds: seq<Deed>)
      modifies this`status, this`at
      ensures Outcome(Value(), deeds) == Advanced(old(Value()), others)
    {
      deeds := [];
      var l := Local(status, keys, peerStatus, at);
      match at {
        case SharingKeys =>
          if others <= keys {
            SetStatus(Starting);
            deeds := Enter();
          }
        case AwaitingRunning =>
          if AllPeers(l, others, Running) {
            SetStatus(Running);
            deeds := Enter();
          }
        case AwaitingTerminated =>
          if AllPeers(l, others, Terminated) {
            SetStatus(Terminated);
            deeds := Enter();
          }
        case InOnStart => at := Waiting(false);
        case Waiting(woken) =>
          if woken {
            deeds := Enter();
          }
        case Exited =>
      }
    }

    method Handle(from: Node, notice: Notice)
      modifies this`status, this`keys, this`peerStatus, this`at
      ensures Value() == Handled(old(Value()), others, from, notice)
    {
      if from !in others {
        return;
      }
      match notice {
        case PubKey => keys := keys + {from};
        case Started =>
          peerStatus := peerStatus[from := Running];
          if status == Starting && AllPeers(Local(status, keys, peerStatus, at), others, Running) {
            SetStatus(Running);
          }
        case Finished =>
          peerStatus := peerStatus[from := Terminated];
          if status == Stopping && AllPeers(Local(status, keys, peerStatus, at), others, Terminated) {
            SetStatus(Terminated);
          }
      }
    }
  }

  /** A node whose monitor has begun and whose start has not yet left the startup delay. */
  function Idle(p: Node): Local { Local(NotStarted, {p}, map[], Waiting(false)) }

  datatype Packet = Packet(from: Node, to: Node, notice: Notice)

  /** |history| is what each node has done so far, in order. */
  datatype Sys = Sys(nodes: map<Node, Local>, bag: multiset<Packet>, history: map<Node, seq<Deed>>)

  function Start(c: set<Node>): Sys {
    Sys(map p | p in c :: Idle(p), multiset{}, map p | p in c :: [])
  }

  function Copies(c: set<Node>, p: Node, deeds: seq<Deed>): multiset<Packet> {
    if deeds == [] then
      multiset{}
    else
      var rest := Copies(c, p, deeds[1..]);
      if deeds[0].Broadcast? then rest + multiset(set q | q in c - {p} :: Packet(p, q, deeds[0].notice)) else rest
  }

  /** |Begin| and |Stop| are what start does: the first status, and the stop once the algorithm,
      the server or the monitor is done, which here may come at any time and more than once. */
  datatype Event = Begin(p: Node) | Stop(p: Node) | Monitors(p: Node) | Receive(m: Packet) | Lose(m: Packet)

  predicate Enabled(s: Sys, e: Event) {
    match e
    case Begin(p) => p in s.nodes && s.nodes[p].status == NotStarted
    case Stop(p) => p in s.nodes && s.nodes[p].status != NotStarted
    case Monitors(p) => p in s.nodes && p in s.history
    case Receive(m) => m in s.bag && m.to in s.nodes
    case Lose(m) => m in s.bag
  }

  function Apply(c: set<Node>, s: Sys, e: Event): Sys
    requires Enabled(s, e)
  {
    match e
    case Begin(p) => s.(nodes := s.nodes[p := WithStatus(s.nodes[p], KeySharing)])
    case Stop(p) => s.(nodes := s.nodes[p := WithStatus(s.nodes[p], Stopping)])
    case Monitors(p) =>
      var o := Advanced(s.nodes[p], c - {p});
      Sys(s.nodes[p := o.local], s.bag + Copies(c, p, o.deeds), s.history[p := s.history[p] + o.deeds])
    case Receive(m) =>
      s.(nodes := s.nodes[m.to := Handled(s.nodes[m.to], c - {m.to}, m.from, m.notice)], bag := s.bag - multiset{m})
    case Lose(m) => s.(bag := s.bag - multiset{m})
  }

  ghost predicate Step(c: set<Node>, s: Sys, s': Sys) {
    exists e: Event :: Enabled(s, e) && s' == Apply(c, s, e)
  }

  ghost predicate Run(c: set<Node>, run: seq<Sys>) {
    && run != [] && run[0] == Start(c)
    && forall i :: 0 <= i < |run| - 1 ==> Step(c, run[i], run[i + 1])
  }

  // ---- one node: its deeds come in order ----

  function Rank(d: Deed): nat {
    match d
    case Broadcast(PubKey) => 0
    case Broadcast(Started) => 1
    case OnStart => 2
    case Broadcast(Finished) => 3
    case OnExit => 4
  }

  predicate Ordered(h: seq<Deed>) {
    forall i, j :: 0 <= i < j < |h| ==> Rank(h[i]) < Rank(h[j])
  }

  /** The deed that took the monitor to where it is suspended. */
  function LastDeed(at: Monitor): Deed {
    match at
    case SharingKeys => Broadcast(PubKey)
    case AwaitingRunning => Broadcast(Started)
    case AwaitingTerminated => Broadcast(Finished)
    case Exited => OnExit
    case _ => OnStart
  }

  /** The last deed tells where the monitor is, and which statuses it can next see. */
  predicate Tracks(l: Local, h: seq<Deed>) {
    && Ordered(h)
    && (h == [] ==> l.at.Waiting? && (l.at.woken <==> l.status != NotStarted))
    && (h == [] ==> l.status in {NotStarted, KeySharing, Stopping, Terminated})
    && (h != [] ==> h[|h| - 1] == LastDeed(l.at) && l.status != NotStarted)
    && (h != [] && l.at.Waiting? ==> l.status in {Stopping, Terminated} || (l.status == Running && !l.at.woken))
    && (l.at.InOnStart? ==> l.status in {Running, Stopping, Terminated})
    && (l.at.SharingKeys? ==> l.status in {KeySharing, Stopping, Terminated})
  }

  lemma AdvanceTracks(l: Local, others: set<Node>, h: seq<Deed>)
    requires Tracks(l, h)
    ensures var o := Advanced(l, others); Tracks(o.local, h + o.deeds)
  {
    hide AllPeers;
  }

  lemma HandleTracks(l: Local, others: set<Node>, from: Node, notice: Notice, h: seq<Deed>)
    requires Tracks(l, h)
    ensures Tracks(Handled(l, others, from, notice), h)
  {
    hide AllPeers, Ordered;
  }

  lemma SetTracks(l: Local, h: seq<Deed>)
    requires Tracks(l, h)
    ensures l.status == NotStarted ==> Tracks(WithStatus(l, KeySharing), h)
    ensures l.status != NotStarted ==> Tracks(WithStatus(l, Stopping), h)
  {
    hide Ordered;
  }

  // ---- all nodes: what a node has noted, others have done ----

  predicate Told(hist: map<Node, seq<Deed>>, q: Node, d: Deed) { q in hist && d in hist[q] }

  predicate AllTold(others: set<Node>, hist: map<Node, seq<Deed>>, d: Deed) {
    forall q :: q in others ==> Told(hist, q, d)
  }

  predicate Noted(l: Local, others: set<Node>, hist: map<Node, seq<Deed>>) {
    forall q :: q in others ==>
      && (q in l.keys ==> Told(hist, q, Broadcast(PubKey)))
      && (StatusOf(l, q) == Running ==> Told(hist, q, Broadcast(Started)))
      && (StatusOf(l, q) == Terminated ==> Told(hist, q, Broadcast(Finished)))
  }

  predicate Justified(l: Local, others: set<Node>, hist: map<Node, seq<Deed>>, h: seq<Deed>) {
    && (l.status in {Starting, Running} || l.at.AwaitingRunning? || Broadcast(Started) in h || OnStart in h ==>
          others <= l.keys)
    && (l.status == Running || OnStart in h ==> AllTold(others, hist, Broadcast(Started)))
    && (l.status == Terminated || OnExit in h ==> AllTold(others, hist, Broadcast(Finished)))
  }

  predicate Backed(l: Local, others: set<Node>, hist: map<Node, seq<Deed>>, h: seq<Deed>) {
    Noted(l, others, hist) && Justified(l, others, hist, h)
  }

  /** No node takes anything back. */
  ghost predicate Grows(hist: map<Node, seq<Deed>>, later: map<Node, seq<Deed>>) {
    forall q, d :: Told(hist, q, d) ==> Told(later, q, d)
  }

  lemma BackedLater(l: Local, others: set<Node>, hist: map<Node, seq<Deed>>, later: map<Node, seq<Deed>>, h: seq<Deed>)
    requires Backed(l, others, hist, h) && Grows(hist, later)
    ensures Backed(l, others, later, h)
  {
    hide Told, StatusOf;
  }

  lemma AllPeersTold(l: Local, others: set<Node>, hist: map<Node, seq<Deed>>)
    requires Noted(l, others, hist)
    ensures AllPeers(l, others, Running) ==> AllTold(others, hist, Broadcast(Started))
    ensures AllPeers(l, others, Terminated) ==> AllTold(others, hist, Broadcast(Finished))
  {
    hide Told, StatusOf;
  }

  lemma AdvanceBacked(l: Local, others: set<Node>, hist: map<Node, seq<Deed>>, h: seq<Deed>)
    requires Backed(l, others, hist, h) && Tracks(l, h)
    ensures var o := Advanced(l, others); Backed(o.local, others, hist, h + o.deeds)
  {
    hide Told, StatusOf, AllPeers, AllTold, Ordered;
    AllPeersTold(l, others, hist);
    assert Noted(Advanced(l, others).local, others, hist) by {
      assert Advanced(l, others).local.peers == l.peers && Advanced(l, others).local.keys == l.keys;
      NotedBy(l, Advanced(l, others).local, others, hist);
    }
  }

  lemma NotedBy(l: Local, l': Local, others: set<Node>, hist: map<Node, seq<Deed>>)
    requires Noted(l, others, hist) && l'.peers == l.peers && l'.keys == l.keys
    ensures Noted(l', others, hist)
  {
    hide Told;
  }

  lemma HandleBacked(l: Local, others: set<Node>, from: Node, notice: Notice, hist: map<Node, seq<Deed>>, h: seq<Deed>)
    requires Backed(l, others, hist, h) && Told(hist, from, Broadcast(notice))
    ensures Backed(Handled(l, others, from, notice), others, hist, h)
  {
    hide Told, AllPeers, AllTold;
    var l' := Handled(l, others, from, notice);
    assert Noted(l', others, hist);
    AllPeersTold(l', others, hist);
    hide Noted, StatusOf;
    SamePeers(l', others);
  }

  lemma SamePeers(l: Local, others: set<Node>)
    ensures forall m: Local, s :: m.peers == l.peers ==> AllPeers(m, others, s) == AllPeers(l, others, s)
  {
  }

  lemma SetBacked(l: Local, others: set<Node>, hist: map<Node, seq<Deed>>, h: seq<Deed>)
    requires Backed(l, others, hist, h)
    ensures Backed(WithStatus(l, KeySharing), others, hist, h) && Backed(WithStatus(l, Stopping), others, hist, h)
  {
    hide Told, AllTold;
  }

  // ---- the run ----

  predicate Shape(c: set<Node>, s: Sys) { s.nodes.Keys == c && s.history.Keys == c }

  /** Whatever is on its way was said. */
  predicate Heard(c: set<Node>, s: Sys) {
    forall m :: m in s.bag ==> m.to in c && Told(s.history, m.from, Broadcast(m.notice))
  }

  predicate NodeInv(c: set<Node>, s: Sys, p: Node)
    requires p in s.nodes && p in s.history
  {
    Tracks(s.nodes[p], s.history[p]) && Backed(s.nodes[p], c - {p}, s.history, s.history[p])
  }

  predicate Inv(c: set<Node>, s: Sys) {
    Shape(c, s) && Heard(c, s) && forall p :: p in c ==> NodeInv(c, s, p)
  }

  lemma {:induction false} CopiesAre(c: set<Node>, p: Node, deeds: seq<Deed>, m: Packet)
    requires m in Copies(c, p, deeds)
    ensures m.from == p && m.to in c && Broadcast(m.notice) in deeds
  {
    if !(deeds[0].Broadcast? && m.to in c - {p} && m == Packet(p, m.to, deeds[0].notice)) {
      CopiesAre(c, p, deeds[1..], m);
    }
  }

  /** A step that changes one node and adds to its history keeps the invariants of the others. */
  lemma OthersKept(c: set<Node>, s: Sys, p: Node, l: Local, deeds: seq<Deed>, bag: multiset<Packet>)
    requires Inv(c, s) && p in c
    ensures Grows(s.history, s.history[p := s.history[p] + deeds])
    ensures var s' := Sys(s.nodes[p := l], bag, s.history[p := s.history[p] + deeds]);
            Shape(c, s') && forall q :: q in c && q != p ==> NodeInv(c, s', q)
  {
    hide Tracks, Backed;
    var later := s.history[p := s.history[p] + deeds];
    forall q | q in c && q != p
      ensures Backed(s.nodes[q], c - {q}, later, later[q])
    {
      assert NodeInv(c, s, q);
      BackedLater(s.nodes[q], c - {q}, s.history, later, s.history[q]);
    }
  }

  lemma NothingAdded(hist: map<Node, seq<Deed>>, p: Node)
    requires p in hist
    ensures hist[p := hist[p] + []] == hist
  {
    assert hist[p] + [] == hist[p];
  }

  lemma SetKeeps(c: set<Node>, s: Sys, p: Node, status: Status)
    requires Inv(c, s) && p in c
    requires if s.nodes[p].status == NotStarted then status == KeySharing else status == Stopping
    ensures Inv(c, s.(nodes := s.nodes[p := WithStatus(s.nodes[p], status)]))
  {
    hide Tracks, Backed, WithStatus, Grows;
    var l := WithStatus(s.nodes[p], status);
    OthersKept(c, s, p, l, [], s.bag);
    NothingAdded(s.history, p);
    assert NodeInv(c, s, p);
    SetTracks(s.nodes[p], s.history[p]);
    SetBacked(s.nodes[p], c - {p}, s.history, s.history[p]);
    assert NodeInv(c, s.(nodes := s.nodes[p := l]), p);
  }

  lemma MonitorKeeps(c: set<Node>, s: Sys, p: Node)
    requires Inv(c, s) && p in c
    ensures Inv(c, Apply(c, s, Monitors(p)))
  {
    hide Tracks, Backed, Advanced, Copies, Told;
    var o, s' := Advanced(s.nodes[p], c - {p}), Apply(c, s, Monitors(p));
    OthersKept(c, s, p, o.local, o.deeds, s'.bag);
    assert NodeInv(c, s, p);
    AdvanceTracks(s.nodes[p], c - {p}, s.history[p]);
    AdvanceBacked(s.nodes[p], c - {p}, s.history, s.history[p]);
    BackedLater(o.local, c - {p}, s.history, s'.history, s'.history[p]);
    assert NodeInv(c, s', p);
    forall m | m in s'.bag
      ensures m.to in c && Told(s'.history, m.from, Broadcast(m.notice))
    {
      if m !in s.bag {
        CopiesAre(c, p, o.deeds, m);
        assert Told(s'.history, p, Broadcast(m.notice)) by { ToldBySelf(s, s', p, o.deeds, Broadcast(m.notice)); }
      }
    }
  }

  lemma ToldBySelf(s: Sys, s': Sys, p: Node, deeds: seq<Deed>, d: Deed)
    requires p in s.history && s'.history == s.history[p := s.history[p] + deeds] && d in deeds
    ensures Told(s'.history, p, d)
  {
  }

  lemma ReceiveKeeps(c: set<Node>, s: Sys, m: Packet)
    requires Inv(c, s) && m in s.bag
    ensures m.to in s.nodes && Inv(c, Apply(c, s, Receive(m)))
  {
    hide Tracks, Backed, Handled, Told, Grows;
    var p := m.to;
    var l := Handled(s.nodes[p], c - {p}, m.from, m.notice);
    OthersKept(c, s, p, l, [], s.bag - multiset{m});
    NothingAdded(s.history, p);
    assert NodeInv(c, s, p);
    HandleTracks(s.nodes[p], c - {p}, m.from, m.notice, s.history[p]);
    HandleBacked(s.nodes[p], c - {p}, m.from, m.notice, s.history, s.history[p]);
    assert NodeInv(c, Apply(c, s, Receive(m)), p);
  }

  lemma LoseKeeps(c: set<Node>, s: Sys, m: Packet)
    requires Inv(c, s)
    ensures Inv(c, s.(bag := s.bag - multiset{m}))
  {
    hide Tracks, Backed, Told;
    var s' := s.(bag := s.bag - multiset{m});
    forall p | p in c
      ensures NodeInv(c, s', p)
    {
      assert NodeInv(c, s, p);
    }
  }

  lemma InvAfter(c: set<Node>, s: Sys, e: Event)
    requires Inv(c, s) && Enabled(s, e)
    ensures Inv(c, Apply(c, s, e))
  {
    hide Heard, NodeInv, WithStatus, Advanced, Handled, Copies;
    match e
    case Begin(p) => SetKeeps(c, s, p, KeySharing);
    case Stop(p) => SetKeeps(c, s, p, Stopping);
    case Monitors(p) => MonitorKeeps(c, s, p);
    case Receive(m) => ReceiveKeeps(c, s, m);
    case Lose(m) => LoseKeeps(c, s, m);
  }

  lemma StartInv(c: set<Node>)
    ensures Inv(c, Start(c))
  {
    var s := Start(c);
    forall p | p in c
      ensures NodeInv(c, s, p)
    {
      assert s.nodes[p] == Idle(p) && s.history[p] == [];
    }
  }

  lemma {:induction false} RunKeepsInv(c: set<Node>, run: seq<Sys>, i: nat)
    requires Run(c, run) && i < |run|
    ensures Inv(c, run[i])
  {
    hide Inv, Apply, Enabled, Start;
    if i == 0 {
      StartInv(c);
    } else {
      RunKeepsInv(c, run, i - 1);
      assert Step(c, run[i - 1], run[i - 1 + 1]);
      var e: Event :| Enabled(run[i - 1], e) && run[i] == Apply(c, run[i - 1], e);
      InvAfter(c, run[i - 1], e);
    }
  }

  /** on_start runs at a node only once every node holds the key of every other, has broadcast its
      own, and every other node has broadcast STARTED. */
  lemma StartBarrier(c: set<Node>, run: seq<Sys>, i: nat, p: Node)
    requires Run(c, run) && i < |run| && Told(run[i].history, p, OnStart)
    ensures run[i].nodes.Keys == c == run[i].history.Keys && p in c
    ensures forall q :: q in c && q != p ==> Told(run[i].history, q, Broadcast(Started))
    ensures forall q :: q in c ==> c - {q} <= run[i].nodes[q].keys
  {
    hide Run, Tracks, Noted;
    RunKeepsInv(c, run, i);
    var s := run[i];
    assert NodeInv(c, s, p);
    forall q | q in c
      ensures c - {q} <= s.nodes[q].keys
    {
      assert NodeInv(c, s, q);
      if q != p {
        assert Told(s.history, q, Broadcast(Started));
      }
    }
  }

  /** on_exit runs at a node only once every other node has broadcast FINISHED. */
  lemma ExitBarrier(c: set<Node>, run: seq<Sys>, i: nat, p: Node, q: Node)
    requires Run(c, run) && i < |run| && Told(run[i].history, p, OnExit) && q in c && q != p
    ensures Told(run[i].history, q, Broadcast(Finished))
  {
    hide Run, Tracks, Noted, Told;
    RunKeepsInv(c, run, i);
    assert p in c by { ToldIsNode(c, run[i], p, OnExit); }
    assert NodeInv(c, run[i], p);
    assert OnExit in run[i].history[p] by { ToldIsNode(c, run[i], p, OnExit); }
  }

  lemma ToldIsNode(c: set<Node>, s: Sys, p: Node, d: Deed)
    requires Shape(c, s) && Told(s.history, p, d)
    ensures p in c && d in s.history[p]
  {
  }

  /** Every node shares its key, broadcasts STARTED, runs on_start, broadcasts FINISHED and runs
      on_exit in this order, each at most once; it may leave some out. */
  lemma DeedsInOrder(c: set<Node>, run: seq<Sys>, i: nat, p: Node)
    requires Run(c, run) && i < |run| && p in c
    ensures p in run[i].history && Ordered(run[i].history[p])
    ensures forall d :: multiset(run[i].history[p])[d] <= 1
  {
    hide Run, Backed, Ordered;
    RunKeepsInv(c, run, i);
    assert NodeInv(c, run[i], p);
    OrderedIsOnce(run[i].history[p]);
  }

  lemma {:induction false} OrderedIsOnce(h: seq<Deed>)
    requires Ordered(h)
    ensures forall d :: multiset(h)[d] <= 1
  {
    if h != [] {
      var n := |h| - 1;
      OrderedIsOnce(h[..n]);
      assert h == h[..n] + [h[n]];
      assert h[n] !in h[..n];
    }
  }

  // ---- exits that were not announced ----

  /** One step, seen at one node: it does nothing there, start sets a status, the monitor goes on,
      or a message is handled. */
  ghost predicate LocalStep(c: set<Node>, s: Sys, s': Sys, p: Node)
    requires p in s.nodes && p in s'.nodes && p in s.history && p in s'.history
  {
    var l, l', h, h' := s.nodes[p], s'.nodes[p], s.history[p], s'.history[p];
    || (l' == l && h' == h)
    || (h' == h && l.status == NotStarted && l' == WithStatus(l, KeySharing))
    || (h' == h && l.status != NotStarted && l' == WithStatus(l, Stopping))
    || (Outcome(l', h') == Advanced(l, c - {p}).(deeds := h + Advanced(l, c - {p}).deeds))
    || (h' == h && exists m :: m in s.bag && m.to == p && s' == Apply(c, s, Receive(m)))
  }

  lemma StepIsLocal(c: set<Node>, s: Sys, s': Sys, p: Node)
    requires Shape(c, s) && Step(c, s, s') && p in c
    ensures Shape(c, s') && LocalStep(c, s, s', p)
  {
    hide LocalStep, Apply;
    var e: Event :| Enabled(s, e) && s' == Apply(c, s, e);
    match e
    case Begin(q) => SetIsLocal(c, s, e, p);
    case Stop(q) => SetIsLocal(c, s, e, p);
    case Monitors(q) => MonitorIsLocal(c, s, q, p);
    case Receive(m) => ReceiveIsLocal(c, s, m, p);
    case Lose(m) => LoseIsLocal(c, s, m, p);
  }

  lemma SetIsLocal(c: set<Node>, s: Sys, e: Event, p: Node)
    requires Shape(c, s) && (e.Begin? || e.Stop?) && Enabled(s, e) && p in c
    ensures Shape(c, Apply(c, s, e)) && LocalStep(c, s, Apply(c, s, e), p)
  {
    hide Advanced, WithStatus, Handled, Copies;
  }

  lemma MonitorIsLocal(c: set<Node>, s: Sys, q: Node, p: Node)
    requires Shape(c, s) && q in c && p in c
    ensures Shape(c, Apply(c, s, Monitors(q))) && LocalStep(c, s, Apply(c, s, Monitors(q)), p)
  {
    hide Advanced, WithStatus, Handled, Copies;
  }

  lemma ReceiveIsLocal(c: set<Node>, s: Sys, m: Packet, p: Node)
    requires Shape(c, s) && m in s.bag && m.to in c && p in c
    ensures Shape(c, Apply(c, s, Receive(m))) && LocalStep(c, s, Apply(c, s, Receive(m)), p)
  {
    hide Advanced, WithStatus, Handled, Copies;
  }

  lemma LoseIsLocal(c: set<Node>, s: Sys, m: Packet, p: Node)
    requires Shape(c, s) && m in s.bag && p in c
    ensures Shape(c, Apply(c, s, Lose(m))) && LocalStep(c, s, Apply(c, s, Lose(m)), p)
  {
    hide Advanced, WithStatus, Handled, Copies;
  }

  /** The last FINISHED arrives when the node has been stopped and its monitor still waits. */
  ghost predicate Overtaken(c: set<Node>, s: Sys, s': Sys, p: Node) {
    exists m :: m in s.bag && Overtakes(c, s, s', p, m)
  }

  predicate Overtakes(c: set<Node>, s: Sys, s': Sys, p: Node, m: Packet)
    requires m in s.bag
  {
    && m.to == p && p in s.nodes && m.notice == Finished && m.from in c - {p} && s' == Apply(c, s, Receive(m))
    && s.nodes[p].status == Stopping && s.nodes[p].at.Waiting?
    && AllPeers(s.nodes[p].(peers := s.nodes[p].peers[m.from := Terminated]), c - {p}, Terminated)
  }

  ghost predicate OvertakenUntil(c: set<Node>, run: seq<Sys>, j: nat, i: nat, p: Node)
    requires i < |run|
  {
    && j < i && Overtaken(c, run[j], run[j + 1], p)
    && forall k :: j < k <= i ==> p in run[k].nodes && run[k].nodes[p].status == Terminated
  }

  predicate Woken(l: Local) { l.status == Terminated && l.at == Waiting(true) }

  lemma AdvanceWakesNobody(l: Local, others: set<Node>)
    ensures !Woken(Advanced(l, others).local)
    ensures OnExit in Advanced(l, others).deeds ==> l.at.AwaitingTerminated? || Woken(l)
  {
    hide AllPeers;
  }

  lemma HandleWakes(l: Local, others: set<Node>, from: Node, notice: Notice)
    requires Woken(Handled(l, others, from, notice)) && !Woken(l)
    ensures notice == Finished && from in others && l.status == Stopping && l.at.Waiting?
    ensures AllPeers(l.(peers := l.peers[from := Terminated]), others, Terminated)
  {
    hide AllPeers;
  }

  lemma WokenBefore(c: set<Node>, s: Sys, s': Sys, p: Node)
    requires Shape(c, s) && Shape(c, s') && p in c && LocalStep(c, s, s', p) && Woken(s'.nodes[p])
    ensures Woken(s.nodes[p]) || Overtaken(c, s, s', p)
  {
    hide AllPeers, Copies, Advanced, Handled;
    AdvanceWakesNobody(s.nodes[p], c - {p});
    if !Woken(s.nodes[p]) {
      var m :| m in s.bag && m.to == p && s' == Apply(c, s, Receive(m));
      HandleWakes(s.nodes[p], c - {p}, m.from, m.notice);
      assert Overtakes(c, s, s', p, m);
    }
  }

  lemma ShapeOf(c: set<Node>, run: seq<Sys>, i: nat)
    requires Run(c, run) && i < |run|
    ensures Shape(c, run[i])
  {
    hide Run, Inv, Shape;
    RunKeepsInv(c, run, i);
    Shaped(c, run[i]);
  }

  lemma LocalStepOf(c: set<Node>, run: seq<Sys>, i: nat, p: Node)
    requires Run(c, run) && i + 1 < |run| && p in c
    ensures Shape(c, run[i]) && Shape(c, run[i + 1]) && LocalStep(c, run[i], run[i + 1], p)
  {
    hide Start, Step, LocalStep;
    ShapeOf(c, run, i);
    assert Step(c, run[i], run[i + 1]);
    StepIsLocal(c, run[i], run[i + 1], p);
  }

  lemma {:induction false} WokenByOvertaking(c: set<Node>, run: seq<Sys>, i: nat, p: Node) returns (j: nat)
    requires Run(c, run) && i < |run| && p in c && Shape(c, run[i]) && Woken(run[i].nodes[p])
    ensures OvertakenUntil(c, run, j, i, p)
  {
    hide LocalStep, Overtaken, Step;
    j := 0;
    if i > 0 {
      LocalStepOf(c, run, i - 1, p);
      WokenBefore(c, run[i - 1], run[i - 1 + 1], p);
      j := i - 1;
      if Woken(run[i - 1].nodes[p]) {
        j := WokenByOvertaking(c, run, i - 1, p);
      }
    }
  }

  lemma OvertakingWakes(c: set<Node>, s: Sys, s': Sys, p: Node)
    requires Shape(c, s) && Overtaken(c, s, s', p)
    ensures p in c && p in s'.nodes && Woken(s'.nodes[p])
  {
  }

  lemma StaysWoken(c: set<Node>, s: Sys, s': Sys, p: Node)
    requires Shape(c, s) && Shape(c, s') && p in c && LocalStep(c, s, s', p)
    requires Woken(s.nodes[p]) && s'.nodes[p].status == Terminated
    ensures Woken(s'.nodes[p]) || OnExit in s'.history[p]
  {
    hide AllPeers, Copies;
  }

  lemma {:induction false} WokenTill(c: set<Node>, run: seq<Sys>, j: nat, i: nat, p: Node)
    requires Run(c, run) && i < |run| && p in c && OvertakenUntil(c, run, j, i, p)
    ensures Shape(c, run[i]) && (Woken(run[i].nodes[p]) || OnExit in run[i].history[p])
  {
    hide LocalStep, Overtaken, Run;
    ShapeOf(c, run, j);
    if i == j + 1 {
      ShapeOf(c, run, i);
      OvertakingWakes(c, run[j], run[i], p);
    } else {
      WokenTill(c, run, j, i - 1, p);
      LocalStepOf(c, run, i - 1, p);
      if Woken(run[i - 1].nodes[p]) {
        StaysWoken(c, run[i - 1], run[i - 1 + 1], p);
      } else {
        HistoryGrows(c, run, i - 1, i, p);
      }
    }
  }

  lemma ExitStep(c: set<Node>, s: Sys, s': Sys, p: Node)
    requires Shape(c, s) && Shape(c, s') && p in c && LocalStep(c, s, s', p) && Tracks(s.nodes[p], s.history[p])
    requires OnExit !in s.history[p] && OnExit in s'.history[p]
    ensures Broadcast(Finished) in s'.history[p] <==> s.nodes[p].at.AwaitingTerminated?
    ensures s.nodes[p].at.AwaitingTerminated? || Woken(s.nodes[p])
  {
    hide AllPeers, Copies, Tracks, Advanced, Handled;
    AdvanceWakesNobody(s.nodes[p], c - {p});
    ExitDeeds(s.nodes[p], c - {p}, s.history[p]);
  }

  /** A node that runs on_exit has broadcast FINISHED unless, at an earlier step, the last FINISHED
      of its peers arrived while it was stopped and its monitor still waited, and its status has
      not changed since. */
  lemma ExitIsAnnouncedExactly(c: set<Node>, run: seq<Sys>, i: nat, p: Node)
    requires Run(c, run) && i + 1 < |run| && p in c
    requires !Told(run[i].history, p, OnExit) && Told(run[i + 1].history, p, OnExit)
    ensures Told(run[i + 1].history, p, Broadcast(Finished)) <==> !exists j: nat :: OvertakenUntil(c, run, j, i, p)
  {
    hide Run, LocalStep, OvertakenUntil, Told, Backed, Heard;
    LocalStepOf(c, run, i, p);
    RunKeepsInv(c, run, i);
    assert NodeInv(c, run[i], p);
    ToldHere(run[i], p);
    ToldHere(run[i + 1], p);
    ExitStep(c, run[i], run[i + 1], p);
    if Woken(run[i].nodes[p]) {
      var j := WokenByOvertaking(c, run, i, p);
    }
    if j: nat :| OvertakenUntil(c, run, j, i, p) {
      WokenTill(c, run, j, i, p);
    }
  }

  lemma {:induction false} FirstTold(run: seq<Sys>, i: nat, p: Node, d: Deed) returns (k: nat)
    requires i < |run| && Told(run[i].history, p, d) && !Told(run[0].history, p, d)
    ensures k < i && !Told(run[k].history, p, d) && Told(run[k + 1].history, p, d)
  {
    hide Told;
    k := i - 1;
    if Told(run[i - 1].history, p, d) {
      k := FirstTold(run, i - 1, p, d);
    }
  }

  /** If no FINISHED is handled between a stop and the monitor's next turn, every exit has been
      announced. */
  lemma UndisturbedExitIsAnnounced(c: set<Node>, run: seq<Sys>, i: nat, p: Node)
    requires Run(c, run) && i < |run| && p in c && Told(run[i].history, p, OnExit)
    requires forall j: nat :: j + 1 < |run| ==> !Overtaken(c, run[j], run[j + 1], p)
    ensures Told(run[i].history, p, Broadcast(Finished))
  {
    hide Step, Overtaken, Inv;
    assert !Told(run[0].history, p, OnExit);
    var k := FirstTold(run, i, p, OnExit);
    ExitIsAnnouncedExactly(c, run, k, p);
    HistoryGrows(c, run, k + 1, i, p);
  }

  // ---- a stop that comes during on_start ----

  /** Stopped, FINISHED not broadcast, and nothing but a further stop will lead there. */
  predicate Lost(l: Local, h: seq<Deed>) {
    && Broadcast(Finished) !in h && l.status in {Stopping, Terminated}
    && (l.at.InOnStart? || l.at.Exited? || l.at == Waiting(false) || Woken(l))
  }

  /** The step is not start stopping |p|. */
  ghost predicate NoStop(c: set<Node>, s: Sys, s': Sys, p: Node) {
    exists e: Event :: Enabled(s, e) && e != Stop(p) && s' == Apply(c, s, e)
  }

  lemma LostLocally(l: Local, others: set<Node>, h: seq<Deed>)
    requires Lost(l, h)
    ensures var o := Advanced(l, others); Lost(o.local, h + o.deeds)
    ensures forall from, notice :: Lost(Handled(l, others, from, notice), h)
  {
    hide AllPeers;
  }

  lemma StaysLost(c: set<Node>, s: Sys, s': Sys, p: Node)
    requires Shape(c, s) && Shape(c, s') && p in c && NoStop(c, s, s', p) && Lost(s.nodes[p], s.history[p])
    ensures Lost(s'.nodes[p], s'.history[p])
  {
    hide Lost, Copies, Advanced, Handled, WithStatus;
    var e: Event :| Enabled(s, e) && e != Stop(p) && s' == Apply(c, s, e);
    LostLocally(s.nodes[p], c - {p}, s.history[p]);
    NotBegun(s.nodes[p], s.history[p]);
  }

  lemma NotBegun(l: Local, h: seq<Deed>)
    requires Lost(l, h)
    ensures l.status != NotStarted
  {
  }

  /** A stop that comes while on_start runs is lost: unless start stops the node again, it never
      broadcasts FINISHED. Only the handler can still let it exit, on the last FINISHED of its
      peers. */
  lemma {:induction false} StopDuringStartIsLost(c: set<Node>, run: seq<Sys>, i: nat, j: nat, p: Node)
    requires Run(c, run) && i <= j < |run| && p in c && p in run[i].nodes
    requires run[i].nodes[p].at.InOnStart? && run[i].nodes[p].status == Stopping
    requires forall k :: i <= k < j ==> NoStop(c, run[k], run[k + 1], p)
    ensures Shape(c, run[j]) && Lost(run[j].nodes[p], run[j].history[p])
    ensures !Told(run[j].history, p, Broadcast(Finished))
  {
    hide Run, NoStop, Backed, Heard;
    ShapeOf(c, run, i);
    ShapeOf(c, run, j);
    if i == j {
      RunKeepsInv(c, run, i);
      assert NodeInv(c, run[i], p);
      StartIsNotFinish(run[i].nodes[p], run[i].history[p]);
    } else {
      StopDuringStartIsLost(c, run, i, j - 1, p);
      assert NoStop(c, run[j - 1], run[j - 1 + 1], p);
      StaysLost(c, run[j - 1], run[j], p);
    }
  }

  lemma StartIsNotFinish(l: Local, h: seq<Deed>)
    requires Tracks(l, h) && l.at.InOnStart?
    ensures Broadcast(Finished) !in h
  {
    assert forall k :: 0 <= k < |h| - 1 ==> Rank(h[k]) < Rank(h[|h| - 1]);
  }

  lemma ToldHere(s: Sys, p: Node)
    requires p in s.history
    ensures forall d :: Told(s.history, p, d) <==> d in s.history[p]
  {
  }

  lemma ExitDeeds(l: Local, others: set<Node>, h: seq<Deed>)
    requires Tracks(l, h) && OnExit !in h && OnExit in Advanced(l, others).deeds
    ensures Broadcast(Finished) in h + Advanced(l, others).deeds <==> l.at.AwaitingTerminated?
  {
    hide AllPeers;
    if Broadcast(Finished) in h {
      var k :| 0 <= k < |h| && h[k] == Broadcast(Finished);
      assert k == |h| - 1 || Rank(h[k]) < Rank(h[|h| - 1]);
    }
  }

  lemma {:induction false} HistoryGrows(c: set<Node>, run: seq<Sys>, i: nat, j: nat, p: Node)
    requires Run(c, run) && i <= j < |run| && p in c
    ensures p in run[i].history && p in run[j].history && run[i].history[p] <= run[j].history[p]
    decreases j - i
  {
    hide Inv, Start, Advanced, Copies;
    assert Shape(c, run[i]) by { RunKeepsInv(c, run, i); Shaped(c, run[i]); }
    if i < j {
      HistoryGrows(c, run, i + 1, j, p);
      assert Step(c, run[i], run[i + 1]);
    }
  }

  lemma Shaped(c: set<Node>, s: Sys)
    requires Inv(c, s)
    ensures Shape(c, s)
  {
  }

  lemma ExitIsLast(h: seq<Deed>, k: nat)
    requires Ordered(h) && k < |h| && h[k] == OnExit
    ensures |h| == k + 1
  {
    assert k == |h| - 1 || Rank(h[k]) < Rank(h[|h| - 1]);
  }

  /** A node that exits without having broadcast FINISHED strands the rest: no other node ever
      reaches on_exit. */
  lemma SilentExitStrands(c: set<Node>, run: seq<Sys>, i: nat, j: nat, p: Node, q: Node)
    requires Run(c, run) && i <= j < |run| && p in c && q in c && p != q
    requires Told(run[i].history, p, OnExit) && !Told(run[i].history, p, Broadcast(Finished))
    ensures !Told(run[j].history, q, OnExit)
  {
    hide Run, Inv;
    HistoryGrows(c, run, i, j, p);
    var h, h' := run[i].history[p], run[j].history[p];
    assert OnExit in h;
    var k :| 0 <= k < |h| && h[k] == OnExit;
    DeedsInOrder(c, run, j, p);
    assert h'[k] == OnExit;
    ExitIsLast(h', k);
    assert h' == h;
    if Told(run[j].history, q, OnExit) {
      ExitBarrier(c, run, j, q, p);
    }
  }

  // ---- a run in which a node exits silently ----

  ghost predicate Reachable(c: set<Node>, s: Sys) { exists run :: Run(c, run) && run[|run| - 1] == s }

  lemma ReachNext(c: set<Node>, s: Sys, e: Event)
    requires Reachable(c, s) && Enabled(s, e)
    ensures Reachable(c, Apply(c, s, e))
  {
    hide Apply, Enabled, Start;
    var run :| Run(c, run) && run[|run| - 1] == s;
    var longer := run + [Apply(c, s, e)];
    forall i | 0 <= i < |longer| - 1
      ensures Step(c, longer[i], longer[i + 1])
    {
      if i < |run| - 1 {
        assert Step(c, run[i], run[i + 1]);
      }
    }
    assert Run(c, longer);
  }

  /** A system of two nodes, seen from one of them. */
  datatype Two = Two(left: Local, right: Local, bag: multiset<Packet>, leftDeeds: seq<Deed>, rightDeeds: seq<Deed>)

  function Whole(p: Node, q: Node, t: Two): Sys
  {
    Sys(map[p := t.left, q := t.right], t.bag, map[p := t.leftDeeds, q := t.rightDeeds])
  }

  ghost predicate Reach(p: Node, q: Node, t: Two) { Reachable({p, q}, Whole(p, q, t)) }

  function Flip(t: Two): Two { Two(t.right, t.left, t.bag, t.rightDeeds, t.leftDeeds) }

  lemma Flipped(p: Node, q: Node, t: Two)
    requires p != q && Reach(p, q, t)
    ensures Reach(q, p, Flip(t))
  {
    hide Reachable;
    assert {p, q} == {q, p};
    assert Whole(p, q, t) == Whole(q, p, Flip(t));
  }

  function Sent(p: Node, q: Node, deeds: seq<Deed>): multiset<Packet> {
    if deeds != [] && deeds[0].Broadcast? then multiset{Packet(p, q, deeds[0].notice)} else multiset{}
  }

  lemma Peer(p: Node, q: Node)
    requires p != q
    ensures {p, q} - {p} == {q}
  {
  }

  lemma CopiesToOne(p: Node, q: Node, deeds: seq<Deed>)
    requires p != q && |deeds| <= 1
    ensures Copies({p, q}, p, deeds) == Sent(p, q, deeds)
  {
    Peer(p, q);
    if deeds != [] && deeds[0].Broadcast? {
      assert (set r | r in {p, q} - {p} :: Packet(p, r, deeds[0].notice)) == {Packet(p, q, deeds[0].notice)};
      assert Copies({p, q}, p, deeds[1..]) == multiset{};
    }
  }

  lemma MonitorsTwo(p: Node, q: Node, t: Two)
    requires p != q
    ensures var o := Advanced(t.left, {q});
            Apply({p, q}, Whole(p, q, t), Monitors(p))
            == Whole(p, q, Two(o.local, t.right, t.bag + Sent(p, q, o.deeds), t.leftDeeds + o.deeds, t.rightDeeds))
  {
    hide Sent, Copies, Advanced;
    var o := Advanced(t.left, {q});
    Peer(p, q);
    AdvanceDeeds(t.left, {q});
    CopiesToOne(p, q, o.deeds);
  }

  lemma AdvanceDeeds(l: Local, others: set<Node>)
    ensures |Advanced(l, others).deeds| <= 1
  {
    hide AllPeers;
  }

  lemma Monitored(p: Node, q: Node, t: Two)
    requires p != q && Reach(p, q, t)
    ensures var o := Advanced(t.left, {q});
            Reach(p, q, Two(o.local, t.right, t.bag + Sent(p, q, o.deeds), t.leftDeeds + o.deeds, t.rightDeeds))
  {
    hide Reachable, Sent, Advanced, Apply;
    MonitorsTwo(p, q, t);
    ReachNext({p, q}, Whole(p, q, t), Monitors(p));
  }

  lemma Received(p: Node, q: Node, t: Two, notice: Notice)
    requires p != q && Reach(p, q, t) && Packet(q, p, notice) in t.bag
    ensures Reach(p, q, t.(left := Handled(t.left, {q}, q, notice), bag := t.bag - multiset{Packet(q, p, notice)}))
  {
    hide Reachable, Handled;
    Peer(p, q);
    var e := Receive(Packet(q, p, notice));
    ReachNext({p, q}, Whole(p, q, t), e);
    assert Apply({p, q}, Whole(p, q, t), e)
        == Whole(p, q, t.(left := Handled(t.left, {q}, q, notice), bag := t.bag - multiset{e.m}));
  }

  lemma StatusSet(p: Node, q: Node, t: Two)
    requires p != q && Reach(p, q, t)
    ensures Reach(p, q, t.(left := WithStatus(t.left, if t.left.status == NotStarted then KeySharing else Stopping)))
  {
    hide Reachable, WithStatus;
    var e := if t.left.status == NotStarted then Begin(p) else Stop(p);
    ReachNext({p, q}, Whole(p, q, t), e);
    assert Apply({p, q}, Whole(p, q, t), e)
        == Whole(p, q, t.(left := WithStatus(t.left, if t.left.status == NotStarted then KeySharing else Stopping)));
  }

  lemma SharesKey(p: Node, q: Node, t: Two)
    requires p != q && Reach(p, q, t) && t.left == Idle(p) && t.leftDeeds == []
    ensures Reach(p, q, t.(left := Local(KeySharing, {p}, map[], SharingKeys),
                           bag := t.bag + multiset{Packet(p, q, PubKey)}, leftDeeds := [Broadcast(PubKey)]))
  {
    hide Reach;
    StatusSet(p, q, t);
    Monitored(p, q, t.(left := Local(KeySharing, {p}, map[], Waiting(true))));
    assert [] + [Broadcast(PubKey)] == [Broadcast(PubKey)];
  }

  lemma LearnsKey(p: Node, q: Node, t: Two)
    requires p != q && Reach(p, q, t) && t.left == Local(KeySharing, {p}, map[], SharingKeys)
    requires t.leftDeeds == [Broadcast(PubKey)]
    requires Packet(q, p, PubKey) in t.bag
    ensures Reach(p, q, t.(left := Local(Starting, {p, q}, map[], AwaitingRunning),
                           bag := t.bag - multiset{Packet(q, p, PubKey)} + multiset{Packet(p, q, Started)},
                           leftDeeds := [Broadcast(PubKey), Broadcast(Started)]))
  {
    hide Reach;
    Received(p, q, t, PubKey);
    assert {p} + {q} == {p, q};
    var bag := t.bag - multiset{Packet(q, p, PubKey)};
    Monitored(p, q, t.(left := Local(KeySharing, {p, q}, map[], SharingKeys), bag := bag));
    assert [Broadcast(PubKey)] + [Broadcast(Started)] == [Broadcast(PubKey), Broadcast(Started)];
  }

  lemma Begins(p: Node, q: Node, t: Two)
    requires p != q && Reach(p, q, t)
    requires t.left == Local(Starting, {p, q}, map[], AwaitingRunning)
    requires t.leftDeeds == [Broadcast(PubKey), Broadcast(Started)]
    requires Packet(q, p, Started) in t.bag
    ensures Reach(p, q, t.(left := Local(Running, {p, q}, map[q := Running], Waiting(false)),
                           bag := t.bag - multiset{Packet(q, p, Started)},
                           leftDeeds := [Broadcast(PubKey), Broadcast(Started), OnStart]))
  {
    hide Reach;
    Received(p, q, t, Started);
    var bag := t.bag - multiset{Packet(q, p, Started)};
    Monitored(p, q, t.(left := Local(Running, {p, q}, map[q := Running], AwaitingRunning), bag := bag));
    assert bag + multiset{} == bag;
    var h := [Broadcast(PubKey), Broadcast(Started), OnStart];
    assert [Broadcast(PubKey), Broadcast(Started)] + [OnStart] == h;
    Monitored(p, q, t.(left := Local(Running, {p, q}, map[q := Running], InOnStart), bag := bag, leftDeeds := h));
    assert h + [] == h;
  }

  /** The other node stops in good order. */
  lemma Stops(p: Node, q: Node, t: Two)
    requires p != q && Reach(p, q, t) && t.left == Local(Running, {p, q}, map[q := Running], Waiting(false))
    ensures Reach(p, q, t.(left := Local(Stopping, {p, q}, map[q := Running], AwaitingTerminated),
                           bag := t.bag + multiset{Packet(p, q, Finished)},
                           leftDeeds := t.leftDeeds + [Broadcast(Finished)]))
  {
    hide Reach;
    StatusSet(p, q, t);
    Monitored(p, q, t.(left := Local(Stopping, {p, q}, map[q := Running], Waiting(true))));
  }

  /** FINISHED arrives after this node's stop and before its monitor wakes. */
  lemma ExitsSilently(p: Node, q: Node, t: Two)
    requires p != q && Reach(p, q, t) && t.left == Local(Running, {p, q}, map[q := Running], Waiting(false))
    requires Packet(q, p, Finished) in t.bag
    ensures Reach(p, q, t.(left := Local(Terminated, {p, q}, map[q := Terminated], Exited),
                           bag := t.bag - multiset{Packet(q, p, Finished)}, leftDeeds := t.leftDeeds + [OnExit]))
  {
    hide Reach;
    StatusSet(p, q, t);
    var t' := t.(left := Local(Stopping, {p, q}, map[q := Running], Waiting(true)));
    Received(p, q, t', Finished);
    assert map[q := Running][q := Terminated] == map[q := Terminated];
    Monitored(p, q, t'.(left := Local(Terminated, {p, q}, map[q := Terminated], Waiting(true)),
                        bag := t.bag - multiset{Packet(q, p, Finished)}));
    assert t.bag - multiset{Packet(q, p, Finished)} + multiset{} == t.bag - multiset{Packet(q, p, Finished)};
  }

  const BEGAN := [Broadcast(PubKey), Broadcast(Started), OnStart]

  /** Both nodes start and none has stopped. */
  function BothRunning(p: Node, q: Node): Two {
    Two(Local(Running, {p, q}, map[q := Running], Waiting(false)),
        Local(Running, {p, q}, map[p := Running], Waiting(false)),
        multiset{}, BEGAN, BEGAN)
  }

  lemma StartReach(p: Node, q: Node)
    requires p != q
    ensures Reach(p, q, Two(Idle(p), Idle(q), multiset{}, [], []))
  {
    hide Step, Idle;
    var s := Start({p, q});
    assert s == Whole(p, q, Two(Idle(p), Idle(q), multiset{}, [], []));
    assert Run({p, q}, [s]);
    assert [s][|[s]| - 1] == s;
  }

  function Exchanged(p: Node, q: Node): Two {
    var h := [Broadcast(PubKey), Broadcast(Started)];
    Two(Local(Starting, {p, q}, map[], AwaitingRunning), Local(Starting, {p, q}, map[], AwaitingRunning),
        multiset{Packet(p, q, Started), Packet(q, p, Started)}, h, h)
  }

  lemma KeysExchanged(p: Node, q: Node)
    requires p != q
    ensures Reach(p, q, Exchanged(p, q))
  {
    hide Reach;
    StartReach(p, q);
    var t0 := Two(Idle(p), Idle(q), multiset{}, [], []);
    SharesKey(p, q, t0);
    var k, h := [Broadcast(PubKey)], [Broadcast(PubKey), Broadcast(Started)];
    var l, r := Local(KeySharing, {p}, map[], SharingKeys), Local(KeySharing, {q}, map[], SharingKeys);
    var t1 := Two(l, Idle(q), multiset{Packet(p, q, PubKey)}, k, []);
    assert t0.bag + multiset{Packet(p, q, PubKey)} == t1.bag;
    Flipped(p, q, t1);
    SharesKey(q, p, Flip(t1));
    var t2 := Two(r, l, t1.bag + multiset{Packet(q, p, PubKey)}, k, k);
    LearnsKey(q, p, t2);
    var l', r' := Local(Starting, {p, q}, map[], AwaitingRunning), Local(Starting, {q, p}, map[], AwaitingRunning);
    var t3 := Two(r', l, multiset{Packet(q, p, PubKey), Packet(q, p, Started)}, h, k);
    assert t2.bag - multiset{Packet(p, q, PubKey)} + multiset{Packet(q, p, Started)} == t3.bag;
    Flipped(q, p, t3);
    LearnsKey(p, q, Flip(t3));
    assert t3.bag - multiset{Packet(q, p, PubKey)} + multiset{Packet(p, q, Started)} == Exchanged(p, q).bag;
    assert {p, q} == {q, p};
  }

  /** A stop does come during on_start: any two nodes have a run in which it has. */
  lemma StopDuringStartHappens(p: Node, q: Node) returns (run: seq<Sys>)
    requires p != q
    ensures Run({p, q}, run) && p in run[|run| - 1].nodes
    ensures run[|run| - 1].nodes[p].at.InOnStart? && run[|run| - 1].nodes[p].status == Stopping
  {
    hide Step, Start;
    assert Reach(p, q, StoppedInStart(p, q)) by { StoppedInStartReached(p, q); }
    run :| Run({p, q}, run) && run[|run| - 1] == Whole(p, q, StoppedInStart(p, q));
  }

  function StoppedInStart(p: Node, q: Node): Two {
    Two(Local(Stopping, {p, q}, map[q := Running], InOnStart), Exchanged(p, q).right,
        multiset{Packet(p, q, Started)}, BEGAN, Exchanged(p, q).rightDeeds)
  }

  lemma StoppedInStartReached(p: Node, q: Node)
    requires p != q
    ensures Reach(p, q, StoppedInStart(p, q))
  {
    hide Reach;
    KeysExchanged(p, q);
    var t := Exchanged(p, q);
    Received(p, q, t, Started);
    var bag := multiset{Packet(p, q, Started)};
    assert t.bag - multiset{Packet(q, p, Started)} == bag && bag + multiset{} == bag;
    Monitored(p, q, t.(left := Local(Running, {p, q}, map[q := Running], AwaitingRunning), bag := bag));
    assert t.leftDeeds + [OnStart] == BEGAN;
    StatusSet(p, q, StoppedInStart(p, q).(left := Local(Running, {p, q}, map[q := Running], InOnStart)));
  }

  lemma BothBegin(p: Node, q: Node)
    requires p != q
    ensures Reach(p, q, BothRunning(p, q))
  {
    hide Reach;
    KeysExchanged(p, q);
    Begins(p, q, Exchanged(p, q));
    var l := Local(Running, {p, q}, map[q := Running], Waiting(false));
    var t := Two(l, Exchanged(p, q).right, multiset{Packet(p, q, Started)}, BEGAN, Exchanged(p, q).rightDeeds);
    assert Exchanged(p, q).bag - multiset{Packet(q, p, Started)} == t.bag;
    Flipped(p, q, t);
    assert {p, q} == {q, p};
    Begins(q, p, Flip(t));
    assert t.bag - multiset{Packet(p, q, Started)} == multiset{};
    Flipped(q, p, Flip(BothRunning(p, q)));
  }

  /** It happens: any two nodes have a run in which one exits without broadcasting FINISHED while
      the other has broadcast it and waits. */
  lemma SilentExitHappens(p: Node, q: Node) returns (run: seq<Sys>)
    requires p != q
    ensures Run({p, q}, run)
    ensures var h := run[|run| - 1].history;
            Told(h, p, OnExit) && !Told(h, p, Broadcast(Finished)) && Told(h, q, Broadcast(Finished))
  {
    hide Step, Start;
    assert Reach(p, q, SilentEnd(p, q)) by { SilentExitReached(p, q); }
    run :| Run({p, q}, run) && run[|run| - 1] == Whole(p, q, SilentEnd(p, q));
  }

  function SilentEnd(p: Node, q: Node): Two {
    Two(Local(Terminated, {p, q}, map[q := Terminated], Exited),
        Local(Stopping, {p, q}, map[p := Running], AwaitingTerminated),
        multiset{}, BEGAN + [OnExit], BEGAN + [Broadcast(Finished)])
  }

  lemma SilentExitReached(p: Node, q: Node)
    requires p != q
    ensures Reach(p, q, SilentEnd(p, q))
  {
    hide Reach;
    assert {p, q} == {q, p};
    BothBegin(p, q);
    var t := BothRunning(p, q);
    Flipped(p, q, t);
    Stops(q, p, Flip(t));
    var t' := t.(right := Local(Stopping, {p, q}, map[p := Running], AwaitingTerminated),
                 bag := t.bag + multiset{Packet(q, p, Finished)}, rightDeeds := BEGAN + [Broadcast(Finished)]);
    Flipped(q, p, Flip(t'));
    ExitsSilently(p, q, t');
    assert t'.bag - multiset{Packet(q, p, Finished)} == multiset{};
  }
}
