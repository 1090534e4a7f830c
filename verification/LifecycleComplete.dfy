/** That nodes do get through the barrier: exactly when each wait of the monitor ends, what the
    handler notes and sets, and for any number of nodes a run in which all come to on_exit. */
module LifecycleComplete {
  import opened Base
  import opened Lifecycle

  // ----- exactly when the waits end

  lemma WaitEnds(l: Local, others: set<Node>, h: seq<Deed>)
    requires Tracks(l, h)
    ensures l.at.SharingKeys? ==>
              (Broadcast(Started) in h + Advanced(l, others).deeds <==> others <= l.keys)
    ensures l.at.AwaitingRunning? ==>
              (OnStart in h + Advanced(l, others).deeds <==> forall q :: q in others ==> StatusOf(l, q) == Running)
    ensures l.at.AwaitingTerminated? ==>
              (OnExit in h + Advanced(l, others).deeds <==> forall q :: q in others ==> StatusOf(l, q) == Terminated)
  {
    hide StatusOf;
    LastIsLargest(h);
  }

  lemma LastIsLargest(h: seq<Deed>)
    requires Ordered(h)
    ensures forall d :: d in h ==> Rank(d) <= Rank(h[|h| - 1])
  {
  }

  /** A turn of the monitor of a node that waits after sharing its key leads to STARTED exactly if it
      holds all keys; after STARTED to on_start exactly if it has noted all peers as running; after
      FINISHED to on_exit exactly if it has noted all peers as terminated. */
  lemma WaitsEndExactly(c: set<Node>, run: seq<Sys>, i: nat, p: Node)
    requires Run(c, run) && i + 1 < |run| && p in c && p in run[i].nodes && p in run[i].history
    requires run[i + 1] == Apply(c, run[i], Monitors(p))
    ensures var l, hist := run[i].nodes[p], run[i + 1].history;
            && (l.at.SharingKeys? ==> (Told(hist, p, Broadcast(Started)) <==> c - {p} <= l.keys))
            && (l.at.AwaitingRunning? ==>
                  (Told(hist, p, OnStart) <==> forall q :: q in c - {p} ==> StatusOf(l, q) == Running))
            && (l.at.AwaitingTerminated? ==>
                  (Told(hist, p, OnExit) <==> forall q :: q in c - {p} ==> StatusOf(l, q) == Terminated))
  {
    hide Run, Backed, Heard, StatusOf, Advanced;
    RunKeepsInv(c, run, i);
    var l, h := run[i].nodes[p], run[i].history[p];
    assert NodeInv(c, run[i], p);
    WaitEnds(l, c - {p}, h);
  }

  /** What handling a notice of a peer changes: the note about that peer, and the status exactly if
      the node waits for it and the peer was the last. */
  lemma HandlesExactly(l: Local, others: set<Node>, from: Node, notice: Notice)
    requires from in others
    ensures var l' := Handled(l, others, from, notice);
            && l'.keys == (if notice == PubKey then l.keys + {from} else l.keys)
            && (forall q :: q != from ==> StatusOf(l', q) == StatusOf(l, q))
            && StatusOf(l', from) == (match notice
                                      case PubKey => StatusOf(l, from)
                                      case Started => Running
                                      case Finished => Terminated)
    ensures var l' := Handled(l, others, from, notice);
            var all := forall q :: q in others ==> StatusOf(l', q) == StatusOf(l', from);
            && l'.status == (if notice == Started && l.status == Starting && all then Running
                             else if notice == Finished && l.status == Stopping && all then Terminated
                             else l.status)
            && (l'.at == l.at || (l'.status != l.status && l.at.Waiting? && l'.at == Waiting(true)))
            && (l'.status != l.status && l.at.Waiting? ==> l'.at == Waiting(true))
  {
    var l' := Handled(l, others, from, notice);
    assert forall q :: q in l'.peers ==> StatusOf(l', q) == l'.peers[q];
    assert forall q :: q in l.peers ==> StatusOf(l, q) == l.peers[q];
  }

  // ----- a run in which all nodes get through

  const LAST := 11

  /** Where every node stands after |k| rounds: start begins, the key is shared and the others' heard,
      STARTED likewise, on_start runs and returns, start stops, FINISHED likewise, on_exit. */
  function StageOf(c: set<Node>, p: Node, k: nat): Local {
    var running, over := map q | q in c - {p} :: Running, map q | q in c - {p} :: Terminated;
    if k == 0 then Idle(p)
    else if k == 1 then Local(KeySharing, {p}, map[], Waiting(true))
    else if k == 2 then Local(KeySharing, {p}, map[], SharingKeys)
    else if k == 3 then Local(KeySharing, c, map[], SharingKeys)
    else if k == 4 then Local(Starting, c, map[], AwaitingRunning)
    else if k == 5 then Local(Running, c, running, AwaitingRunning)
    else if k == 6 then Local(Running, c, running, InOnStart)
    else if k == 7 then Local(Running, c, running, Waiting(false))
    else if k == 8 then Local(Stopping, c, running, Waiting(true))
    else if k == 9 then Local(Stopping, c, running, AwaitingTerminated)
    else if k == 10 then Local(Terminated, c, over, AwaitingTerminated)
    else Local(Terminated, c, over, Exited)
  }

  /** The deed of round |k|. */
  function DeedOf(k: nat): seq<Deed> {
    if k == 1 then [Broadcast(PubKey)]
    else if k == 3 then [Broadcast(Started)]
    else if k == 5 then [OnStart]
    else if k == 8 then [Broadcast(Finished)]
    else if k == 10 then [OnExit]
    else []
  }

  function DeedsBy(k: nat): seq<Deed> { if k == 0 then [] else DeedsBy(k - 1) + DeedOf(k - 1) }

  predicate HearingRound(k: nat) { k == 2 || k == 4 || k == 9 }

  function NoticeOf(k: nat): Notice { if k <= 2 then PubKey else if k <= 4 then Started else Finished }

  function Stage(k: nat, done: set<Node>, p: Node): nat { if p in done then k + 1 else k }

  /** What must be on its way: in a hearing round what the others have yet to hear, in a broadcast
      round what those that are done have sent. */
  ghost predicate Mail(c: set<Node>, s: Sys, k: nat, done: set<Node>) {
    && (HearingRound(k) ==> forall q, x ::
          q in c && x in c && q != x && x !in done ==> Packet(q, x, NoticeOf(k)) in s.bag)
    && (HearingRound(k + 1) ==> forall q, x ::
          q in c && x in c && q != x && q in done ==> Packet(q, x, NoticeOf(k + 1)) in s.bag)
  }

  ghost predicate InRound(c: set<Node>, s: Sys, k: nat, done: set<Node>) {
    && Shape(c, s) && Mail(c, s, k, done)
    && forall x :: x in c ==>
         s.nodes[x] == StageOf(c, x, Stage(k, done, x)) && s.history[x] == DeedsBy(Stage(k, done, x))
  }

  // one node, one event

  lemma MonitorTurn(c: set<Node>, p: Node, k: nat)
    requires p in c && k in {1, 3, 5, 6, 8, 10}
    ensures Advanced(StageOf(c, p, k), c - {p}) == Outcome(StageOf(c, p, k + 1), DeedOf(k))
  {
    var l := StageOf(c, p, k);
    assert forall q :: q in c - {p} ==> k in {5, 10} ==> StatusOf(l, q) == l.peers[q];
  }

  lemma StatusTurn(p: Node, c: set<Node>)
    ensures WithStatus(StageOf(c, p, 0), KeySharing) == StageOf(c, p, 1)
    ensures WithStatus(StageOf(c, p, 7), Stopping) == StageOf(c, p, 8)
  {
  }

  /** A node in a hearing round that has heard |heard|. */
  function Midway(c: set<Node>, p: Node, k: nat, heard: set<Node>): Local {
    if k == 2 then Local(KeySharing, {p} + heard, map[], SharingKeys)
    else if k == 4 then
      Local(if heard == c - {p} then Running else Starting, c, map q | q in heard :: Running, AwaitingRunning)
    else
      Local(if heard == c - {p} then Terminated else Stopping, c,
            map q | q in c - {p} :: if q in heard then Terminated else Running, AwaitingTerminated)
  }

  lemma MidwayEnds(c: set<Node>, p: Node, k: nat)
    requires p in c && c - {p} != {} && HearingRound(k)
    ensures Midway(c, p, k, {}) == StageOf(c, p, k) && Midway(c, p, k, c - {p}) == StageOf(c, p, k + 1)
  {
    var nobody: set<Node> := {};
    assert {p} + (c - {p}) == c && {p} + nobody == {p};
    assert (map q | q in nobody :: Running) == map[];
  }

  lemma HearOne(c: set<Node>, p: Node, k: nat, heard: set<Node>, q: Node)
    requires p in c && HearingRound(k) && heard <= c - {p} && q in c - {p} - heard
    ensures Handled(Midway(c, p, k, heard), c - {p}, q, NoticeOf(k)) == Midway(c, p, k, heard + {q})
  {
    var l, l' := Midway(c, p, k, heard), Midway(c, p, k, heard + {q});
    var noted := if k == 2 then l else l.(peers := l.peers[q := if k == 4 then Running else Terminated]);
    assert {p} + heard + {q} == {p} + (heard + {q});
    assert k != 2 ==> noted.peers == l'.peers;
    assert heard != c - {p};
    AllNotedMidway(c, p, k, heard + {q}, noted);
  }

  lemma AllNotedMidway(c: set<Node>, p: Node, k: nat, heard: set<Node>, l: Local)
    requires HearingRound(k) && k != 2 ==> l.peers == Midway(c, p, k, heard).peers
    requires heard <= c - {p}
    ensures k == 4 ==> (AllPeers(l, c - {p}, Running) <==> heard == c - {p})
    ensures k == 9 ==> (AllPeers(l, c - {p}, Terminated) <==> heard == c - {p})
  {
    if k == 4 || k == 9 {
      var status := if k == 4 then Running else Terminated;
      assert forall q :: q in c - {p} ==> (StatusOf(l, q) == status <==> q in heard);
    }
  }

  // one node, one round

  ghost predicate MidRound(c: set<Node>, s: Sys, k: nat, done: set<Node>, p: Node, heard: set<Node>) {
    && Shape(c, s) && p in c && p !in done && HearingRound(k) && s.history[p] == DeedsBy(k)
    && s.nodes[p] == Midway(c, p, k, heard)
    && (forall q, x :: q in c && x in c && q != x && x !in done && (x == p ==> q !in heard) ==>
          Packet(q, x, NoticeOf(k)) in s.bag)
    && (forall x :: x in c && x != p ==>
          s.nodes[x] == StageOf(c, x, Stage(k, done, x)) && s.history[x] == DeedsBy(Stage(k, done, x)))
  }

  lemma HearStep(c: set<Node>, s: Sys, k: nat, done: set<Node>, p: Node, heard: set<Node>, q: Node)
    requires MidRound(c, s, k, done, p, heard) && heard <= c - {p} && q in c - {p} - heard
    ensures var e := Receive(Packet(q, p, NoticeOf(k)));
            Enabled(s, e) && MidRound(c, Apply(c, s, e), k, done, p, heard + {q})
  {
    hide Midway, StageOf, DeedsBy, Handled, NoticeOf;
    HearOne(c, p, k, heard, q);
  }

  lemma {:induction false} HearAll(c: set<Node>, s: Sys, k: nat, done: set<Node>, p: Node, heard: set<Node>)
    returns (s': Sys)
    requires Reachable(c, s) && MidRound(c, s, k, done, p, heard) && heard <= c - {p}
    ensures Reachable(c, s') && MidRound(c, s', k, done, p, c - {p})
    decreases |c - {p} - heard|
  {
    hide Reachable, MidRound, Apply, Enabled;
    s' := s;
    if c - {p} - heard != {} {
      var q :| q in c - {p} - heard;
      var e := Receive(Packet(q, p, NoticeOf(k)));
      HearStep(c, s, k, done, p, heard, q);
      ReachNext(c, s, e);
      assert c - {p} - (heard + {q}) == c - {p} - heard - {q};
      s' := HearAll(c, Apply(c, s, e), k, done, p, heard + {q});
    } else {
      assert heard == c - {p};
    }
  }

  lemma BeginsMidRound(c: set<Node>, s: Sys, k: nat, done: set<Node>, p: Node)
    requires InRound(c, s, k, done) && p in c - done && HearingRound(k) && c - {p} != {}
    ensures MidRound(c, s, k, done, p, {})
  {
    hide Midway, StageOf, DeedsBy, NoticeOf;
    MidwayEnds(c, p, k);
  }

  lemma EndsMidRound(c: set<Node>, s: Sys, k: nat, done: set<Node>, p: Node)
    requires MidRound(c, s, k, done, p, c - {p}) && c - {p} != {}
    ensures InRound(c, s, k, done + {p})
  {
    hide Midway, StageOf, NoticeOf, DeedsBy, Mail;
    MidwayEnds(c, p, k);
    assert DeedsBy(k + 1) == DeedsBy(k) by { NoDeed(k); }
    MailLeft(c, s, k, done, p);
  }

  lemma NoDeed(k: nat)
    requires HearingRound(k)
    ensures DeedsBy(k + 1) == DeedsBy(k)
  {
    assert DeedsBy(k) + [] == DeedsBy(k);
  }

  lemma MailLeft(c: set<Node>, s: Sys, k: nat, done: set<Node>, p: Node)
    requires MidRound(c, s, k, done, p, c - {p})
    ensures Mail(c, s, k, done + {p})
  {
    hide Midway, StageOf, NoticeOf, DeedsBy;
  }

  lemma BroadcastOf(k: nat)
    requires HearingRound(k + 1)
    ensures DeedOf(k) == [Broadcast(NoticeOf(k + 1))]
  {
  }

  lemma CopyFor(c: set<Node>, p: Node, x: Node, n: Notice)
    requires x in c && x != p
    ensures Packet(p, x, n) in Copies(c, p, [Broadcast(n)])
  {
    assert x in c - {p};
  }

  lemma SentInRound(c: set<Node>, p: Node, k: nat)
    requires HearingRound(k + 1)
    ensures forall x :: x in c && x != p ==> Packet(p, x, NoticeOf(k + 1)) in Copies(c, p, DeedOf(k))
  {
    hide Copies, NoticeOf;
    assert DeedOf(k) == [Broadcast(NoticeOf(k + 1))] by { BroadcastOf(k); }
    forall x | x in c && x != p
      ensures Packet(p, x, NoticeOf(k + 1)) in Copies(c, p, DeedOf(k))
    {
      CopyFor(c, p, x, NoticeOf(k + 1));
    }
  }

  function EventOf(k: nat, p: Node): Event {
    if k == 0 then Begin(p) else if k == 7 then Stop(p) else Monitors(p)
  }

  /** The state after one more node has had its turn. */
  lemma RoundGrows(c: set<Node>, s: Sys, s': Sys, k: nat, done: set<Node>, p: Node)
    requires InRound(c, s, k, done) && p in c - done && !HearingRound(k)
    requires s'.nodes == s.nodes[p := StageOf(c, p, k + 1)] && s'.history == s.history[p := DeedsBy(k + 1)]
    requires forall m :: m in s.bag ==> m in s'.bag
    requires HearingRound(k + 1) ==> forall x :: x in c && x != p ==> Packet(p, x, NoticeOf(k + 1)) in s'.bag
    ensures InRound(c, s', k, done + {p})
  {
    hide DeedsBy, StageOf, NoticeOf, Mail;
    MailGrows(c, s, s', k, done, p);
  }

  lemma MailGrows(c: set<Node>, s: Sys, s': Sys, k: nat, done: set<Node>, p: Node)
    requires Mail(c, s, k, done) && p in c - done && !HearingRound(k)
    requires forall m :: m in s.bag ==> m in s'.bag
    requires HearingRound(k + 1) ==> forall x :: x in c && x != p ==> Packet(p, x, NoticeOf(k + 1)) in s'.bag
    ensures Mail(c, s', k, done + {p})
  {
    hide NoticeOf;
  }

  lemma NextDeeds(k: nat)
    ensures DeedsBy(k + 1) == DeedsBy(k) + DeedOf(k)
    ensures k == 0 ==> DeedsBy(k) == []
  {
  }

  lemma StatusRound(c: set<Node>, s: Sys, k: nat, done: set<Node>, p: Node)
    requires InRound(c, s, k, done) && p in c - done && k in {0, 7}
    ensures Enabled(s, EventOf(k, p)) && InRound(c, Apply(c, s, EventOf(k, p)), k, done + {p})
  {
    hide DeedsBy, WithStatus, Mail, NoticeOf;
    StatusTurn(p, c);
    StatusOfStage(c, p);
    NextDeeds(k);
    assert DeedsBy(k) + [] == DeedsBy(k);
    var s' := Apply(c, s, EventOf(k, p));
    assert s.history == s.history[p := DeedsBy(k + 1)];
    RoundGrows(c, s, s', k, done, p);
  }

  lemma StatusOfStage(c: set<Node>, p: Node)
    ensures StageOf(c, p, 0).status == NotStarted && StageOf(c, p, 7).status != NotStarted
  {
  }

  lemma MonitorRound(c: set<Node>, s: Sys, k: nat, done: set<Node>, p: Node)
    requires InRound(c, s, k, done) && p in c - done && k in {1, 3, 5, 6, 8, 10}
    ensures Enabled(s, EventOf(k, p)) && InRound(c, Apply(c, s, EventOf(k, p)), k, done + {p})
  {
    hide DeedsBy, DeedOf, StageOf, Advanced, Mail, NoticeOf, Copies;
    MonitorTurn(c, p, k);
    NextDeeds(k);
    if HearingRound(k + 1) {
      SentInRound(c, p, k);
    }
    RoundGrows(c, s, Apply(c, s, EventOf(k, p)), k, done, p);
  }

  lemma OneRound(c: set<Node>, s: Sys, k: nat, done: set<Node>, p: Node) returns (s': Sys)
    requires Reachable(c, s) && InRound(c, s, k, done) && p in c - done && k < LAST && c - {p} != {}
    ensures Reachable(c, s') && InRound(c, s', k, done + {p})
  {
    hide Reachable, InRound, MidRound, Apply, Enabled;
    if HearingRound(k) {
      BeginsMidRound(c, s, k, done, p);
      s' := HearAll(c, s, k, done, p, {});
      EndsMidRound(c, s', k, done, p);
    } else {
      if k == 0 || k == 7 {
        StatusRound(c, s, k, done, p);
      } else {
        MonitorRound(c, s, k, done, p);
      }
      ReachNext(c, s, EventOf(k, p));
      s' := Apply(c, s, EventOf(k, p));
    }
  }

  lemma {:induction false} FullRound(c: set<Node>, s: Sys, k: nat, done: set<Node>) returns (s': Sys)
    requires Reachable(c, s) && InRound(c, s, k, done) && done <= c && k < LAST && |c| >= 2
    ensures Reachable(c, s') && InRound(c, s', k, c)
    decreases |c - done|
  {
    hide Reachable, InRound;
    s' := s;
    if c - done != {} {
      var p :| p in c - done;
      Another(c, p);
      var t := OneRound(c, s, k, done, p);
      assert c - (done + {p}) == c - done - {p};
      s' := FullRound(c, t, k, done + {p});
    } else {
      NobodyLeft(c, done);
    }
  }

  lemma NobodyLeft(c: set<Node>, done: set<Node>)
    requires done <= c && c - done == {}
    ensures done == c
  {
    assert forall x :: x in c ==> x in done || x in c - done;
  }

  lemma Another(c: set<Node>, p: Node)
    requires |c| >= 2
    ensures c - {p} != {}
  {
    SurvivorSize(c, {p});
  }

  lemma NextRound(c: set<Node>, s: Sys, k: nat)
    requires InRound(c, s, k, c)
    ensures InRound(c, s, k + 1, {})
  {
    hide StageOf, DeedsBy;
  }

  lemma FirstRound(c: set<Node>)
    ensures Reachable(c, Start(c)) && InRound(c, Start(c), 0, {})
  {
    assert Run(c, [Start(c)]);
    assert [Start(c)][|[Start(c)]| - 1] == Start(c);
  }

  lemma {:induction false} Rounds(c: set<Node>, k: nat) returns (s: Sys)
    requires |c| >= 2 && k <= LAST
    ensures Reachable(c, s) && InRound(c, s, k, {})
  {
    hide Reachable, InRound, Start;
    if k == 0 {
      FirstRound(c);
      s := Start(c);
    } else {
      var t := Rounds(c, k - 1);
      s := FullRound(c, t, k - 1, {});
      NextRound(c, s, k - 1);
    }
  }

  /** The deeds of the first four rounds, and of all. */
  lemma FirstDeeds()
    ensures DeedsBy(4) == [Broadcast(PubKey), Broadcast(Started)]
  {
    hide DeedsBy;
    NextDeeds(0);
    NextDeeds(1);
    assert DeedsBy(2) == [Broadcast(PubKey)];
    NextDeeds(2);
    NextDeeds(3);
  }

  lemma AllDeeds()
    ensures DeedsBy(LAST) == [Broadcast(PubKey), Broadcast(Started), OnStart, Broadcast(Finished), OnExit]
  {
    hide DeedsBy;
    FirstDeeds();
    assert DeedsBy(6) == [Broadcast(PubKey), Broadcast(Started), OnStart] by {
      NextDeeds(4);
      NextDeeds(5);
    }
    assert DeedsBy(9) == [Broadcast(PubKey), Broadcast(Started), OnStart, Broadcast(Finished)] by {
      NextDeeds(6);
      NextDeeds(7);
      NextDeeds(8);
    }
    NextDeeds(9);
    NextDeeds(10);
  }

  /** All five deeds, in order, the last one on_exit after the own FINISHED. */
  predicate GotThrough(s: Sys, p: Node) {
    && p in s.history
    && s.history[p] == [Broadcast(PubKey), Broadcast(Started), OnStart, Broadcast(Finished), OnExit]
  }

  /** Any two or more nodes have a run in which every one of them shares its key, broadcasts STARTED,
      runs on_start, broadcasts FINISHED and runs on_exit. */
  lemma AllGetThrough(c: set<Node>) returns (run: seq<Sys>)
    requires |c| >= 2
    ensures Run(c, run)
    ensures forall p :: p in c ==> GotThrough(run[|run| - 1], p)
  {
    hide Step, Start, StageOf, DeedsBy;
    var s := Rounds(c, LAST);
    AllDeeds();
    run :| Run(c, run) && run[|run| - 1] == s;
  }
}
