/** Safety of the plain Bracha broadcast in every run, what it has achieved at rest, and the
    exact system sizes that takes. */
module BrachaGuarantees {
  import opened Base
  import opened BrachaRecord
  import opened Bracha
  import opened BrachaByzantine

  function Readiers(c: Config, s: Sys): set<Node> {
    set p | p in c.correct && RecOf(s, p).sentReady
  }

  // ----- safety, in every state of every run

  /** However handlers and suspended handlers interleave, a correct process broadcasts ECHO and
      READY at most once for a message id and hands it up at most once. */
  lemma AtMostOnce(c: Config, run: seq<Sys>, p: Node)
    requires Legal(c) && Run(c, run) && p in c.correct
    ensures run[|run| - 1].casts[Cast(p, Echo)] <= 1 && run[|run| - 1].casts[Cast(p, Ready)] <= 1
    ensures |OutOf(run[|run| - 1], p)| <= 1
  {
    hide Inv, Step;
    RunKeepsInv(c, run);
    Obligations(c, run[|run| - 1], p);
  }

  lemma Obligations(c: Config, s: Sys, p: Node)
    requires Inv(c, s) && p in c.correct
    ensures LocalAt(c, s, p) && TallyAt(c, s, p)
  {
    hide LocalAt, TallyAt, Wire, Log, Causes, Flood, NoMutualStall;
  }

  ghost function WhoEchoed(s: Sys, body: string): set<Node> {
    set pk | pk in s.log && pk.kind == Echo && pk.body == body :: pk.src
  }

  /** For one message id at most one payload is ever echoed by a quorum: two quorums share more
      than |f| processes, and a correct one echoes a single payload. */
  lemma EchoQuorumUnique(c: Config, run: seq<Sys>, a: string, b: string)
    requires Legal(c) && Run(c, run)
    requires 2 * |WhoEchoed(run[|run| - 1], a)| >= |c.nodes| + c.f + 1
    requires 2 * |WhoEchoed(run[|run| - 1], b)| >= |c.nodes| + c.f + 1
    ensures a == b
  {
    hide Step, Said, Words;
    var s := run[|run| - 1];
    RunKeepsInv(c, run);
    var both := WhoEchoed(s, a) * WhoEchoed(s, b);
    assert forall pk :: pk in s.log ==> Genuine(c, s, pk);
    Overlap(WhoEchoed(s, a), WhoEchoed(s, b), c.nodes);
    SurvivorSize(both, Faulty(c));
    assert |both - Faulty(c)| > 0;
    var q :| q in both - Faulty(c);
    var x :| x in s.log && x.kind == Echo && x.body == a && x.src == q;
    var y :| y in s.log && y.kind == Echo && y.body == b && y.src == q;
    assert Genuine(c, s, x) && Genuine(c, s, y);
  }

  /** No READY and no delivery out of nothing: behind either stands a number of correct echoers
      that the faulty processes cannot make up, each of which initiated or was sent a SEND. */
  lemma NoReadyFromNothing(c: Config, run: seq<Sys>, p: Node)
    requires Legal(c) && Run(c, run) && p in c.correct
    requires RecOf(run[|run| - 1], p).sentReady || RecOf(run[|run| - 1], p).delivered
    ensures 2 * (|Echoers(c, run[|run| - 1])| + |Faulty(c)|) >= |c.nodes| + c.f + 1
    ensures Echoers(c, run[|run| - 1]) != {}
    ensures forall q :: q in c.correct && RecOf(run[|run| - 1], q).sentEcho ==> Prompted(c, run[|run| - 1], q)
  {
    hide Inv, Step, RecOf, Said, Echoers, Prompted, QuorumSeen, TallyAt;
    var s := run[|run| - 1];
    RunKeepsInv(c, run);
    Obligations(c, s, p);
    if !RecOf(s, p).sentReady {
      var r := CorrectReadier(c, s, p);
      Obligations(c, s, r);
    }
    QuorumHolder(c, s);
    EchoersPrompted(c, s);
    SubsetSize(Faulty(c), c.nodes - {p});
  }

  lemma QuorumHolder(c: Config, s: Sys)
    requires Legal(c) && Inv(c, s) && Readiers(c, s) != {}
    ensures 2 * (|Echoers(c, s)| + |Faulty(c)|) >= |c.nodes| + c.f + 1
  {
    hide RecOf, Said, Wire, Log, Flood, NoMutualStall, EchoQuorum, LocalAt, TallyAt, Echoers;
    var q :| q in Readiers(c, s);
    assert QuorumSeen(c, s);
    var r :| r in c.correct && 2 * |RecOf(s, r).echos| >= |c.nodes| + c.f + 1;
    QuorumEchoers(c, s, r);
  }

  lemma EchoersPrompted(c: Config, s: Sys)
    requires Inv(c, s)
    ensures forall q :: q in c.correct && RecOf(s, q).sentEcho ==> Prompted(c, s, q)
  {
    hide RecOf, Said, Wire, Log, Flood, Tally, NoMutualStall, EchoQuorum, Prompted, LocalAt;
    forall q | q in c.correct && RecOf(s, q).sentEcho
      ensures Prompted(c, s, q)
    {
      OwnEchoCounted(c, s, q);
    }
  }

  // ----- at rest

  /** At rest a correct process has heard every other correct process, and owes nothing. */
  lemma AtRest(c: Config, s: Sys, q: Node)
    requires Legal(c) && Inv(c, s) && Quiescent(s) && q in c.correct
    ensures Readiers(c, s) - {q} <= RecOf(s, q).readys
    ensures Echoers(c, s) - {q} <= RecOf(s, q).echos
    ensures c.origin.Some? ==> RecOf(s, q).seen
    ensures LocalAt(c, s, q) && !TailPending(s, q)
  {
    hide RecOf, OutOf, Said, Words, Wire, Log, Tally, Causes, NoMutualStall, Local;
    forall p | p in c.correct && p != q
      ensures Reached(c, s, p, q) && LocalAt(c, s, p)
    {
    }
    assert LocalAt(c, s, q);
  }

  /** Once f+1 correct processes have sent READY, at rest all have. */
  lemma ReadySpreads(c: Config, s: Sys)
    requires Legal(c) && Inv(c, s) && Quiescent(s) && |Readiers(c, s)| >= c.f + 1
    ensures Readiers(c, s) == c.correct
  {
    hide Inv, Quiescent, RecOf, OutOf, Said, Words, EchoQuorum;
    forall q | q in c.correct
      ensures q in Readiers(c, s)
    {
      AtRest(c, s, q);
      if !RecOf(s, q).sentReady {
        SubsetSize(Readiers(c, s), RecOf(s, q).readys);
      }
    }
  }

  /** If all correct processes have sent READY and N >= 3f+2, at rest all have delivered. */
  lemma AllReadyDeliver(c: Config, s: Sys, q: Node)
    requires Legal(c) && Inv(c, s) && Quiescent(s) && q in c.correct
    requires Readiers(c, s) == c.correct && |c.nodes| >= 3 * c.f + 2
    ensures RecOf(s, q).delivered
  {
    hide Inv, Quiescent, RecOf, OutOf, Said, Words, Readiers, EchoQuorum;
    AtRest(c, s, q);
    SurvivorSize(c.nodes, Faulty(c));
    assert c.nodes - Faulty(c) == c.correct;
    SurvivorSize(c.correct, {q});
    SubsetSize(c.correct - {q}, RecOf(s, q).readys);
  }

  lemma {:induction false} DeliveredStays(c: Config, run: seq<Sys>, i: nat, p: Node)
    requires Legal(c) && Run(c, run) && i < |run| && p in c.correct && RecOf(run[i], p).delivered
    ensures RecOf(run[|run| - 1], p).delivered
  {
    hide Inv, Deliver, Inject, MayInject, Started, RecOf;
    var n := |run| - 1;
    if i < n {
      assert Run(c, run[..n]);
      RunKeepsInv(c, run[..n]);
      DeliveredStays(c, run[..n], i, p);
      assert Step(c, run[n - 1], run[n]);
      var pk: Packet :| StepOf(c, run[n - 1], pk, run[n]);
      StepKeepsDelivered(c, run[n - 1], pk, run[n], p);
    }
  }

  lemma StepKeepsDelivered(c: Config, s: Sys, pk: Packet, s': Sys, p: Node)
    requires Inv(c, s) && StepOf(c, s, pk, s') && RecOf(s, p).delivered
    ensures RecOf(s', p).delivered
  {
    hide After, Inject, MayInject, Handled, Log, Tally, Flood, Locals, Causes, NoMutualStall, RecOf, Genuine;
    if pk in s.bag && s' == Deliver(c, s, pk) {
      HandledHandles(c, RecOf(s, pk.dst), pk);
      AfterFacts(c, s, pk, Handled(c, RecOf(s, pk.dst), pk), s');
    } else {
      InjectFacts(s, pk);
    }
  }

  /** Totality, for any sender and up to |f| arbitrary Byzantine processes: once one correct
      process has delivered the message id, every run at rest has delivered it at all. */
  lemma Totality(c: Config, run: seq<Sys>, i: nat, p: Node, q: Node)
    requires Legal(c) && Run(c, run) && Quiescent(run[|run| - 1]) && |c.nodes| >= 3 * c.f + 2
    requires i < |run| && p in c.correct && q in c.correct && RecOf(run[i], p).delivered
    ensures RecOf(run[|run| - 1], q).delivered
  {
    hide Inv, Quiescent, RecOf, OutOf, Said, Words, Step;
    var s := run[|run| - 1];
    RunKeepsInv(c, run);
    DeliveredStays(c, run, i, p);
    Obligations(c, s, p);
    SurvivorSize(RecOf(s, p).readys, Faulty(c));
    forall r | r in RecOf(s, p).readys - Faulty(c)
      ensures r in Readiers(c, s)
    {
      Obligations(c, s, r);
    }
    SubsetSize(RecOf(s, p).readys - Faulty(c), Readiers(c, s));
    ReadySpreads(c, s);
    AllReadyDeliver(c, s, q);
  }

  /** The system size from which a correct sender is always delivered. Counting the own ECHO
      lowers it by one, although the handler that counts it does not re-test the threshold. */
  function ValidityBound(c: Config): nat {
    if c.countOwn then 3 * c.f + 2 else 3 * c.f + 3
  }

  lemma AllEchoed(c: Config, s: Sys, q: Node)
    requires Legal(c) && Inv(c, s) && Quiescent(s) && c.origin.Some? && q in c.correct
    ensures Echoers(c, s) == c.correct
    ensures c.correct - {q} <= RecOf(s, q).echos
    ensures c.countOwn ==> c.correct <= RecOf(s, q).echos
  {
    hide Inv, Quiescent, RecOf, OutOf, Said, Words;
    forall p | p in c.correct
      ensures RecOf(s, p).sentEcho
    {
      AtRest(c, s, p);
      OwnEchoCounted(c, s, p);
    }
    AtRest(c, s, q);
    OwnEchoCounted(c, s, q);
  }

  /** Enough correct processes leave the ECHO phase: without the own ECHO every tally reaches
      the quorum on an arriving ECHO; with it at most one process can be left stalled. */
  lemma EchoPhaseEnds(c: Config, s: Sys)
    requires Legal(c) && Inv(c, s) && Quiescent(s) && c.origin.Some?
    requires |c.nodes| >= ValidityBound(c)
    ensures |Readiers(c, s)| >= c.f + 1
  {
    hide Inv, Quiescent, RecOf, OutOf, Said, Words, Echoers;
    SurvivorSize(c.nodes, Faulty(c));
    assert c.nodes - Faulty(c) == c.correct;
    if exists x :: x in c.correct && !RecOf(s, x).sentReady {
      var x :| x in c.correct && !RecOf(s, x).sentReady;
      forall q | q in c.correct - {x}
        ensures q in Readiers(c, s)
      {
        OneStallAtMost(c, s, x, q);
      }
      SurvivorSize(c.correct, {x});
      SubsetSize(c.correct - {x}, Readiers(c, s));
    } else {
      SubsetSize(c.correct, Readiers(c, s));
    }
  }

  lemma OneStallAtMost(c: Config, s: Sys, x: Node, q: Node)
    requires Legal(c) && Inv(c, s) && Quiescent(s) && c.origin.Some? && |c.nodes| >= ValidityBound(c)
    requires x in c.correct && q in c.correct && x != q && !RecOf(s, x).sentReady
    ensures RecOf(s, q).sentReady
  {
    hide Quiescent, RecOf, OutOf, Said, Words, Echoers, Wire, Log, Tally, Flood, Causes, Locals;
    EchoTallies(c, s, x);
    EchoTallies(c, s, q);
    assert !Crossed(c, s, x, q);
  }

  lemma EchoTallies(c: Config, s: Sys, q: Node)
    requires Legal(c) && Inv(c, s) && Quiescent(s) && c.origin.Some? && |c.nodes| >= ValidityBound(c)
    requires q in c.correct
    ensures c.correct - {q} <= RecOf(s, q).echos
    ensures c.countOwn ==> 2 * |RecOf(s, q).echos| >= |c.nodes| + c.f + 1
    ensures !c.countOwn ==> RecOf(s, q).sentReady
  {
    hide Inv, Quiescent, RecOf, OutOf, Said, Words, Echoers;
    AllEchoed(c, s, q);
    AtRest(c, s, q);
    SurvivorSize(c.nodes, Faulty(c));
    assert c.nodes - Faulty(c) == c.correct;
    if c.countOwn {
      SubsetSize(c.correct, RecOf(s, q).echos);
    } else {
      SurvivorSize(c.correct, {q});
      SubsetSize(c.correct - {q}, RecOf(s, q).echos - {q});
    }
  }

  /** Validity: with a correct sender every run at rest has delivered its message id at every
      correct process, whatever the Byzantine processes did and in whatever order. */
  lemma Validity(c: Config, run: seq<Sys>, q: Node)
    requires Legal(c) && Run(c, run) && Quiescent(run[|run| - 1]) && c.origin.Some?
    requires |c.nodes| >= ValidityBound(c) && q in c.correct
    ensures RecOf(run[|run| - 1], q).delivered
  {
    hide Inv, Quiescent, RecOf, Step, Readiers;
    var s := run[|run| - 1];
    RunKeepsInv(c, run);
    EchoPhaseEnds(c, s);
    ReadySpreads(c, s);
    AllReadyDeliver(c, s, q);
  }

  // ----- the bounds are exact

  /** With 3f+1 processes or fewer and |f| of them faulty, no correct process ever delivers
      without a READY from a Byzantine one: its own READY does not count. */
  lemma DeliveryNeedsByzantineReady(c: Config, run: seq<Sys>, q: Node)
    requires Legal(c) && Run(c, run) && q in c.correct && RecOf(run[|run| - 1], q).delivered
    requires |c.nodes| <= 3 * c.f + 1 && |Faulty(c)| == c.f
    ensures RecOf(run[|run| - 1], q).readys * c.liars != {}
  {
    hide Inv, Step, RecOf, Said;
    var s := run[|run| - 1];
    RunKeepsInv(c, run);
    Obligations(c, s, q);
    if RecOf(s, q).readys * c.liars == {} {
      SubsetSize(RecOf(s, q).readys, c.correct - {q});
    }
  }

  /** With silent faulty processes and no own ECHO counted, 3f+2 processes never reach a quorum. */
  lemma NoQuorumBelowBound(c: Config, s: Sys)
    requires Legal(c) && Inv(c, s) && c.liars == {} && |Faulty(c)| == c.f
    requires !c.countOwn && |c.nodes| <= 3 * c.f + 2
    ensures Readiers(c, s) == {}
  {
    hide RecOf, Said, Wire, Log, Flood, NoMutualStall, Local;
    if exists p :: p in Readiers(c, s) {
      var p :| p in Readiers(c, s);
      assert QuorumSeen(c, s);
      var r :| r in c.correct && 2 * |RecOf(s, r).echos| >= |c.nodes| + c.f + 1;
      assert TallyAt(c, s, r) && LocalAt(c, s, r);
      OwnEchoCounted(c, s, r);
      SubsetSize(RecOf(s, r).echos, c.correct - {r});
    }
  }

  /** Exactly when a correct sender is delivered everywhere if |f| processes stay silent. */
  lemma ValidityExact(c: Config, run: seq<Sys>)
    requires Legal(c) && Run(c, run) && Quiescent(run[|run| - 1]) && c.origin.Some?
    requires c.liars == {} && |Faulty(c)| == c.f
    ensures (forall q :: q in c.correct ==> RecOf(run[|run| - 1], q).delivered) <==> |c.nodes| >= ValidityBound(c)
  {
    hide Inv, Quiescent, Step, RecOf, Said, Readiers, LocalAt;
    var s, o := run[|run| - 1], c.origin.value;
    RunKeepsInv(c, run);
    if |c.nodes| >= ValidityBound(c) {
      forall q | q in c.correct ensures RecOf(s, q).delivered { Validity(c, run, q); }
    } else if RecOf(s, o).delivered {
      if |c.nodes| <= 3 * c.f + 1 {
        DeliveryNeedsByzantineReady(c, run, o);
      } else {
        NoQuorumBelowBound(c, s);
        NobodyReady(c, s, o);
      }
    }
  }

  lemma NobodyReady(c: Config, s: Sys, q: Node)
    requires Legal(c) && Inv(c, s) && c.liars == {} && Readiers(c, s) == {} && q in c.correct
    ensures !RecOf(s, q).delivered
  {
    hide Inv, RecOf, Said;
    Obligations(c, s, q);
    if RecOf(s, q).readys != {} {
      var r :| r in RecOf(s, q).readys;
      Obligations(c, s, r);
    }
  }
}
