/** What an optimized Bracha broadcast has achieved once nothing is left to deliver. */
module BrachaOptimizedTotality {
  import opened Base
  import opened Ordering
  import opened BrachaRecord
  import opened BrachaOptimized
  import opened BrachaOptimizedRun

  ghost function Echoers(c: Config): set<Node> { EchoCommittee(c.nodes, c.f, c.sender) }

  ghost function Readiers(c: Config): set<Node> { ReadyCommittee(c.nodes, c.f, c.sender) }

  /** Who echoes on account of a SEND in single-hop mode. */
  ghost function FirstEchoers(c: Config): set<Node> {
    c.nbrs + Echoers(c) * {c.sender}
  }

  ghost function ReadySenders(c: Config, s: Sys): set<Node> {
    set p | p in c.nodes && RecOf(s, p).sentReady
  }

  /** The committees have exactly their nominal sizes, so losing any |f| members still leaves an
      ECHO quorum and a delivery quorum; the sender sits on its own ECHO committee only in the
      two smallest systems. */
  lemma CommitteeSoundness(c: Config, gone: set<Node>)
    requires Legal(c) && |gone| <= c.f
    ensures |c.nodes| + c.f + 1 <= 2 * (|Echoers(c)| - c.f) < |c.nodes| + c.f + 3 && |Readiers(c)| == 3 * c.f + 1
    ensures Echoers(c) <= c.nodes && Readiers(c) <= c.nodes
    ensures 2 * |Echoers(c) - gone| >= |c.nodes| + c.f + 1 && |Readiers(c) - gone| >= 2 * c.f + 1
    ensures c.sender in Echoers(c) <==> |c.nodes| <= 3 * c.f + 2
  {
    hide Committee;
    CommitteeSize(c.nodes, c.sender, EchoQuorum(|c.nodes|, c.f) + c.f);
    CommitteeSize(c.nodes, c.sender, 3 * c.f + 1);
    SurvivorSize(Echoers(c), gone);
    SurvivorSize(Readiers(c), gone);
  }

  /** Fewer than |f| members of a committee are lossy. */
  ghost predicate FewLost(c: Config, committee: set<Node>) { |committee * c.omit| < c.f }

  lemma Survivors(c: Config, committee: set<Node>)
    requires FewLost(c, committee)
    ensures |committee - c.omit| > |committee| - c.f
  {
    assert committee == (committee - c.omit) + (committee * c.omit);
  }

  lemma ReadySendersMade(c: Config, s: Sys)
    requires Once(c, s)
    ensures forall q :: q in c.nodes ==> (q in ReadySenders(c, s) <==> Made(s, q, Ready))
    ensures ReadySenders(c, s) <= c.nodes
  {
    hide RecOf, OutOf;
    forall q | q in c.nodes
      ensures q in ReadySenders(c, s) <==> Made(s, q, Ready)
    {
      assert s.casts[Cast(q, Ready)] == if RecOf(s, q).sentReady then 1 else 0;
    }
  }

  /** At rest every reliable process has heard every READY sender but itself, and its own
      obligations are settled. */
  lemma AtRest(c: Config, s: Sys, p: Node)
    requires Inv(c, s) && Quiescent(c, s) && p in c.nodes - c.omit
    ensures ReadySenders(c, s) - {p} <= RecOf(s, p).readys <= ReadySenders(c, s)
    ensures Local(EnvOf(c, p), c.sender, RecOf(s, p), false, false, Made(s, p, Echo))
    ensures forall q :: q in c.nodes && q != p && Made(s, q, Echo) ==> q in RecOf(s, p).echos
    ensures p in SendTargets(c) ==> RecOf(s, p).seen
  {
    hide Local, RecOf, OutOf, Made, Wire, Once, ReadySenders;
    ReadySendersMade(c, s);
    assert forall k, q :: Pk(c, k, q, p) !in s.bag;
    assert LocalAt(c, s, p);
  }

  /** A reliable member of the READY committee that hears f+1 READYs is itself a READY sender. */
  lemma AmplifiedReady(c: Config, s: Sys, q: Node)
    requires Inv(c, s) && Quiescent(c, s) && q in Readiers(c) - c.omit && q in c.nodes
    requires |ReadySenders(c, s)| >= c.f + 1
    ensures q in ReadySenders(c, s)
  {
    hide Inv, RecOf, OutOf, Made, Quiescent, SendTargets, EchoCommittee, ReadyCommittee;
    AtRest(c, s, q);
    if q !in ReadySenders(c, s) {
      SubsetSize(ReadySenders(c, s), RecOf(s, q).readys);
    }
  }

  /** If enough processes sent READY, the amplification rule makes the whole committee send it
      and everybody delivers. */
  lemma ManyReadies(c: Config, s: Sys, p: Node)
    requires Legal(c) && Inv(c, s) && Quiescent(c, s) && p in c.nodes - c.omit
    requires FewLost(c, Readiers(c)) && |ReadySenders(c, s)| >= c.f + 1
    ensures RecOf(s, p).delivered
  {
    hide Inv, RecOf, OutOf, ReadySenders, Made, Quiescent, SendTargets;
    CommitteeSoundness(c, {});
    forall q | q in Readiers(c) - c.omit
      ensures q in ReadySenders(c, s)
    {
      AmplifiedReady(c, s, q);
    }
    AtRest(c, s, p);
    Survivors(c, Readiers(c));
    SurvivorSize(Readiers(c) - c.omit, {p});
    SubsetSize(Readiers(c) - c.omit - {p}, RecOf(s, p).readys);
  }

  /** If too few processes sent READY for that, every reliable member of the ECHO committee has
      really broadcast an ECHO: the silent-echo rule cannot have suppressed it. */
  lemma FewReadiesAllEcho(c: Config, s: Sys, p: Node)
    requires Legal(c) && Inv(c, s) && Quiescent(c, s) && p in Echoers(c) - c.omit
    requires |ReadySenders(c, s)| <= c.f
    requires c.flags.singleHop ==> |FirstEchoers(c) - c.omit| >= c.f + 1
    ensures Made(s, p, Echo)
  {
    hide Inv, RecOf, OutOf, Made, Quiescent, FirstEchoers, EchoCommittee, ReadyCommittee, Run;
    CommitteeSoundness(c, {});
    AtRest(c, s, p);
    SubsetSize(RecOf(s, p).readys, ReadySenders(c, s));
    assert RecOf(s, p).sentEcho by {
      if c.flags.amplify && ReadySenders(c, s) != {} {
        var r :| r in ReadySenders(c, s);
        assert r != p ==> r in RecOf(s, p).readys;
      } else if c.flags.singleHop {
        NoReadiesSingleHop(c, s, p);
      } else {
        assert p == c.sender || p in SendTargets(c);
      }
    }
  }

  /** With single-hop SEND and no READY anywhere, the sender's neighbours echo and the
      amplification rule spreads the ECHO to the rest of the committee. */
  lemma NoReadiesSingleHop(c: Config, s: Sys, p: Node)
    requires Legal(c) && Inv(c, s) && Quiescent(c, s) && p in Echoers(c) - c.omit
    requires ReadySenders(c, s) == {} && c.flags.singleHop
    requires |FirstEchoers(c) - c.omit| >= c.f + 1
    ensures RecOf(s, p).sentEcho
  {
    hide Inv, RecOf, OutOf, Made, Quiescent, FirstEchoers, EchoCommittee, ReadyCommittee, ReadySenders;
    var first := FirstEchoers(c) - c.omit;
    CommitteeSoundness(c, {});
    forall q | q in first
      ensures q in c.nodes && RecOf(s, q).sentEcho && Made(s, q, Echo)
    {
      FirstEchoes(c, s, q);
    }
    AtRest(c, s, p);
    if p !in first {
      SubsetSize(first, RecOf(s, p).echos - {p});
    }
  }

  lemma FirstEchoes(c: Config, s: Sys, q: Node)
    requires Legal(c) && Inv(c, s) && Quiescent(c, s) && q in FirstEchoers(c) - c.omit
    requires ReadySenders(c, s) == {} && c.flags.singleHop
    ensures q in c.nodes && RecOf(s, q).sentEcho && Made(s, q, Echo)
  {
    hide Inv, RecOf, OutOf, Made, Quiescent, EchoCommittee, ReadyCommittee, ReadySenders;
    AtRest(c, s, q);
  }

  /** A reliable member of the READY committee hears an ECHO quorum and sends READY. */
  lemma QuorumReady(c: Config, s: Sys, p: Node)
    requires Legal(c) && Inv(c, s) && Quiescent(c, s) && p in Readiers(c) - c.omit
    requires FewLost(c, Echoers(c)) && |ReadySenders(c, s)| <= c.f
    requires c.flags.singleHop ==> |FirstEchoers(c) - c.omit| >= c.f + 1
    ensures p in ReadySenders(c, s)
  {
    hide Inv, RecOf, OutOf, Made, Quiescent, FirstEchoers, EchoCommittee, ReadyCommittee;
    CommitteeSoundness(c, {});
    var voters := Echoers(c) - c.omit;
    forall q | q in voters
      ensures Made(s, q, Echo)
    {
      FewReadiesAllEcho(c, s, q);
    }
    AtRest(c, s, p);
    Survivors(c, Echoers(c));
    SurvivorSize(voters, {p});
    SubsetSize(voters - {p}, RecOf(s, p).echos - {p});
  }

  /** With few READYs and a full ECHO committee the READY committee would have fired. */
  lemma FewReadiesImpossible(c: Config, s: Sys)
    requires Legal(c) && Inv(c, s) && Quiescent(c, s)
    requires FewLost(c, Echoers(c)) && FewLost(c, Readiers(c))
    requires c.flags.singleHop ==> |FirstEchoers(c) - c.omit| >= c.f + 1
    ensures |ReadySenders(c, s)| >= c.f + 1
  {
    hide Inv, RecOf, OutOf, Made, Quiescent, ReadySenders, FirstEchoers, EchoCommittee, ReadyCommittee;
    if |ReadySenders(c, s)| <= c.f {
      CommitteeSoundness(c, {});
      forall p | p in Readiers(c) - c.omit
        ensures p in ReadySenders(c, s)
      {
        QuorumReady(c, s, p);
      }
      Survivors(c, Readiers(c));
      SubsetSize(Readiers(c) - c.omit, ReadySenders(c, s));
    }
  }

  /** Totality: with fewer than |f| lossy processes on either committee and any number elsewhere, and
      in single-hop mode at least f+1 reliable first echoers, every run that has come to rest has
      delivered the sender's payload, once, at every reliable process. */
  lemma Totality(c: Config, run: seq<Sys>, p: Node)
    requires Legal(c) && Run(c, run) && Quiescent(c, run[|run| - 1])
    requires FewLost(c, Echoers(c)) && FewLost(c, Readiers(c)) && p in c.nodes - c.omit
    requires c.flags.singleHop ==> |FirstEchoers(c) - c.omit| >= c.f + 1
    ensures OutOf(run[|run| - 1], p) == [c.payload]
  {
    hide Quiescent, ReadySenders, FirstEchoers;
    var s := run[|run| - 1];
    RunKeepsInv(c, run);
    FewReadiesImpossible(c, s);
    ManyReadies(c, s, p);
  }

  /** However the suspended handlers interleave, a process broadcasts READY at most once and hands
      up at most one payload, the sender's. */
  lemma AtMostOnce(c: Config, run: seq<Sys>, p: Node)
    requires Legal(c) && Run(c, run) && p in c.nodes
    ensures run[|run| - 1].casts[Cast(p, Ready)] <= 1
    ensures OutOf(run[|run| - 1], p) in {[], [c.payload]}
  {
    hide Step, Wire, Tally, Flood, Locals, RecOf, OutOf;
    RunKeepsInv(c, run);
  }

  // ----- the bounds are needed

  /** A process that never counts its own READY needs 2f+1 others: no member of the READY
      committee can deliver, at any point of any run, before 2f+2 members have sent READY. Losing
      |f| members of the committee therefore already blocks the survivors. */
  lemma MemberNeedsTwoMore(c: Config, run: seq<Sys>, p: Node)
    requires Legal(c) && Run(c, run) && p in Readiers(c)
    requires RecOf(run[|run| - 1], p).delivered
    ensures ReadySenders(c, run[|run| - 1]) <= Readiers(c)
    ensures |ReadySenders(c, run[|run| - 1])| >= 2 * c.f + 2
  {
    hide RecOf, Step, Inv, EchoCommittee, ReadyCommittee;
    var s := run[|run| - 1];
    RunKeepsInv(c, run);
    CommitteeSoundness(c, {});
    forall q | q in ReadySenders(c, s)
      ensures q in Readiers(c)
    {
      OwnObligations(c, s, q);
    }
    OwnObligations(c, s, p);
    ReadysWereSent(c, s, p);
    ProperSubsetSize(RecOf(s, p).readys, ReadySenders(c, s), p);
  }

  lemma OwnObligations(c: Config, s: Sys, p: Node)
    requires Inv(c, s) && p in c.nodes
    ensures LocalAt(c, s, p)
  {
    hide LocalAt;
  }

  lemma ReadysWereSent(c: Config, s: Sys, p: Node)
    requires Inv(c, s) && p in c.nodes
    ensures RecOf(s, p).readys <= ReadySenders(c, s) && p !in RecOf(s, p).readys
  {
    hide RecOf, OutOf, Made, Once, ReadySenders, Wire, Flood, Locals;
    ReadySendersMade(c, s);
  }

  /** Nobody outside the first echoers has echoed and nobody has sent READY. */
  ghost predicate Starved(c: Config, s: Sys) {
    forall q :: q in c.nodes ==> (Made(s, q, Echo) ==> q in FirstEchoers(c)) && !Made(s, q, Ready)
  }

  lemma StarvedTallies(c: Config, s: Sys, p: Node)
    requires Inv(c, s) && Starved(c, s) && p in c.nodes
    ensures RecOf(s, p).readys == {} && RecOf(s, p).echos <= FirstEchoers(c)
    ensures RecOf(s, p).sentEcho ==> p in FirstEchoers(c)
  {
    hide RecOf, OutOf, Made, FirstEchoers, Wire, Flood, Once, EchoEligible, ReadyEligible;
    assert LocalAt(c, s, p);
    assert forall q :: q in RecOf(s, p).readys ==> Made(s, q, Ready) && q in c.nodes;
  }

  /** A handler run among starved processes makes no READY and no ECHO but a first echoer's. */
  lemma StarvedOutcome(c: Config, rec: Rec, pk: Packet)
    requires Legal(c) && c.flags.singleHop && |FirstEchoers(c)| <= c.f
    requires rec.readys == {} && rec.echos <= FirstEchoers(c)
    requires pk.kind != Ready && (pk.kind == Echo ==> pk.src in FirstEchoers(c))
    requires pk.kind == Send ==> pk.dst in c.nbrs
    ensures Handled(c, rec, pk).cast in {None, Some(Echo)}
    ensures Handled(c, rec, pk).cast == Some(Echo) ==> pk.dst in FirstEchoers(c)
  {
    hide Echoers, EchoEligible, ReadyEligible;
    SubsetSize(rec.echos, FirstEchoers(c));
    if pk.kind == Echo {
      SubsetSize(rec.echos + {pk.src}, FirstEchoers(c));
    }
  }

  lemma StaysStarved(c: Config, s: Sys, pk: Packet)
    requires Legal(c) && Inv(c, s) && Starved(c, s) && pk in s.bag
    requires c.flags.singleHop && |FirstEchoers(c)| <= c.f
    ensures Starved(c, Deliver(c, s, pk))
  {
    hide RecOf, OutOf, Made, FirstEchoers, Handled, Exec, Tally, Flood, Once, Locals;
    var rec := RecOf(s, pk.dst);
    assert Genuine(c, s, pk);
    StarvedTallies(c, s, pk.dst);
    StarvedOutcome(c, rec, pk);
    AfterFacts(c, s, pk, Handled(c, rec, pk), Deliver(c, s, pk));
  }

  lemma LosingKeepsStarved(c: Config, s: Sys, pk: Packet)
    requires Starved(c, s) && pk in s.bag
    ensures Starved(c, Lose(s, pk))
  {
    hide Lose, Made, FirstEchoers;
    LoseFacts(s, pk);
  }

  lemma StartedIsStarved(c: Config)
    requires Legal(c)
    ensures Starved(c, Started(c))
  {
    hide Started;
    StartedFacts(c);
  }

  lemma {:induction false} RunStaysStarved(c: Config, run: seq<Sys>)
    requires Legal(c) && Run(c, run) && c.flags.singleHop && |FirstEchoers(c)| <= c.f
    ensures Starved(c, run[|run| - 1])
  {
    hide Deliver, Lose, Inv, Starved, Started, FirstEchoers;
    var n := |run| - 1;
    if n == 0 {
      StartedIsStarved(c);
    } else {
      assert Run(c, run[..n]);
      RunStaysStarved(c, run[..n]);
      RunKeepsInv(c, run[..n]);
      assert Step(c, run[n - 1], run[n]);
      var pk: Packet :| StepOf(c, run[n - 1], pk, run[n]);
      if run[n] == Deliver(c, run[n - 1], pk) {
        StaysStarved(c, run[n - 1], pk);
      } else {
        LosingKeepsStarved(c, run[n - 1], pk);
      }
    }
  }

  /** Exactly when an all-reliable system delivers: some fault must be budgeted for (with f = 0
      the one READY sender waits for another READY for ever), and in single-hop mode f+1
      processes must echo on their own account. */
  lemma FaultFreeExact(c: Config, run: seq<Sys>)
    requires Legal(c) && Run(c, run) && Quiescent(c, run[|run| - 1]) && c.omit == {}
    ensures (forall p :: p in c.nodes ==> OutOf(run[|run| - 1], p) == [c.payload])
      <==> c.f >= 1 && (c.flags.singleHop ==> |FirstEchoers(c)| >= c.f + 1)
  {
    hide Step, Quiescent, Inv, FirstEchoers, RecOf, OutOf, EchoCommittee, ReadyCommittee;
    var s := run[|run| - 1];
    RunKeepsInv(c, run);
    if c.f >= 1 && (c.flags.singleHop ==> |FirstEchoers(c)| >= c.f + 1) {
      assert FirstEchoers(c) - c.omit == FirstEchoers(c);
      forall p | p in c.nodes
        ensures OutOf(s, p) == [c.payload]
      {
        Totality(c, run, p);
      }
    } else {
      CommitteeSoundness(c, {});
      assert |Readiers(c)| >= 1;
      var r :| r in Readiers(c);
      NotDelivered(c, run, r);
    }
  }

  lemma NotDelivered(c: Config, run: seq<Sys>, r: Node)
    requires Legal(c) && Run(c, run) && r in Readiers(c) && r in c.nodes
    requires c.f == 0 || (c.flags.singleHop && |FirstEchoers(c)| <= c.f)
    ensures OutOf(run[|run| - 1], r) == []
  {
    hide Step, FirstEchoers, RecOf, OutOf, Made, EchoCommittee;
    hide ReadyCommittee, Wire, Flood, Tally, EchoEligible, ReadyEligible;
    var s := run[|run| - 1];
    RunKeepsInv(c, run);
    OwnObligations(c, s, r);
    if RecOf(s, r).delivered {
      MemberNeedsTwoMore(c, run, r);
      SubsetSize(ReadySenders(c, s), Readiers(c));
      CommitteeSoundness(c, {});
      assert c.f != 0;
      RunStaysStarved(c, run);
      StarvedTallies(c, s, r);
    }
  }
}
