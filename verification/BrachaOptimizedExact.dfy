/** Exactly which losses the optimized Bracha broadcast tolerates, for every combination of flags. */
module BrachaOptimizedExact {
  import opened Base
  import opened Ordering
  import opened BrachaRecord
  import opened BrachaOptimized
  import opened BrachaOptimizedRun
  import opened BrachaOptimizedTotality
  import opened BrachaOptimizedTermination

  /** Who may ever broadcast an ECHO. */
  ghost function AllEchoers(c: Config): set<Node> {
    Echoers(c) + if c.flags.singleHop then c.nbrs else if c.flags.reduced then {} else c.nodes - {c.sender}
  }

  ghost function Voters(c: Config): set<Node> { AllEchoers(c) - c.omit }

  ghost function Broadcasters(c: Config, s: Sys): set<Node> {
    set p | p in c.nodes && Made(s, p, Echo)
  }

  // ----- why ECHOs and READYs were broadcast

  ghost predicate OwnCounted(c: Config, s: Sys) {
    forall p :: p in c.nodes && RecOf(s, p).sentEcho ==> p in RecOf(s, p).echos
  }

  /** Only entitled processes echo; behind an ECHO of one that is not a first echoer stand f+1 of
      those; behind a READY stands a quorum of ECHOs. */
  ghost predicate Caused(c: Config, s: Sys) {
    && Broadcasters(c, s) <= AllEchoers(c)
    && (c.flags.singleHop ==>
          Broadcasters(c, s) <= FirstEchoers(c) || |Broadcasters(c, s) * FirstEchoers(c)| >= c.f + 1)
    && (ReadySenders(c, s) != {} ==> 2 * |Broadcasters(c, s)| >= |c.nodes| + c.f + 1)
  }

  lemma OwnCountedAfter(env: Env, rec: Rec, src: Node, sender: Node)
    requires rec.sentEcho ==> env.me in rec.echos
    ensures var r := SendStep(env, rec, sender).rec; r.sentEcho ==> env.me in r.echos
    ensures var r := EchoStep(env, rec, src, sender).rec; r.sentEcho ==> env.me in r.echos
    ensures var r := EchoTailStep(env, rec, sender).rec; r.sentEcho ==> env.me in r.echos
    ensures var r := ReadyTailStep(env, rec).rec; r.sentEcho ==> env.me in r.echos
  {
    hide EchoEligible, ReadyEligible, EchoQuorum;
  }

  lemma OwnCountedAfterReady(env: Env, rec: Rec, src: Node, sender: Node)
    requires rec.sentEcho ==> env.me in rec.echos
    ensures var r := ReadyStep(env, rec, src, sender).rec; r.sentEcho ==> env.me in r.echos
  {
    hide EchoEligible, ReadyEligible;
  }

  /** A READY sent by a process that has heard none rests on a full tally of ECHOs. */
  lemma FirstReady(env: Env, rec: Rec, src: Node, sender: Node)
    requires rec.readys == {}
    ensures SendStep(env, rec, sender).cast != Some(Ready)
    ensures EchoStep(env, rec, src, sender).cast == Some(Ready) ==> 2 * |rec.echos + {src}| >= |env.ids| + env.f + 1
    ensures EchoTailStep(env, rec, sender).cast == Some(Ready) ==> 2 * |rec.echos| >= |env.ids| + env.f + 1
    ensures ReadyTailStep(env, rec).cast != Some(Ready)
  {
    hide EchoEligible, ReadyEligible, EchoQuorum;
  }

  /** Why each handler broadcasts an ECHO. */
  lemma WhyEcho(env: Env, rec: Rec, src: Node, sender: Node)
    ensures SendStep(env, rec, sender).cast == Some(Echo) ==>
              env.flags.singleHop || !env.flags.reduced || EchoEligible(env, sender)
    ensures EchoStep(env, rec, src, sender).cast == Some(Echo) ==>
              EchoEligible(env, sender) && !rec.sentEcho && |rec.echos + {src}| >= env.f + 1
    ensures ReadyStep(env, rec, src, sender).cast == Some(Echo) ==> EchoEligible(env, sender)
    ensures EchoTailStep(env, rec, sender).cast != Some(Echo) && ReadyTailStep(env, rec).cast != Some(Echo)
  {
    hide EchoEligible, ReadyEligible, EchoQuorum;
  }

  lemma TallyFacts(c: Config, s: Sys, p: Node)
    requires Inv(c, s) && p in c.nodes
    ensures RecOf(s, p).echos - {p} <= Broadcasters(c, s) && RecOf(s, p).readys <= ReadySenders(c, s)
    ensures RecOf(s, p).readys == {} ==> RecOf(s, p).echos <= Broadcasters(c, s)
    ensures p in Broadcasters(c, s) ==> RecOf(s, p).sentEcho
  {
    hide RecOf, OutOf, Made, Wire, Flood, ReadySenders, ReadySide, EchoEligible, ReadyEligible;
    ReadySendersMade(c, s);
    assert LocalAt(c, s, p);
  }

  lemma SetsAfter(c: Config, s: Sys, pk: Packet)
    requires Legal(c) && Inv(c, s) && pk in s.bag
    ensures var o, s' := Handled(c, RecOf(s, pk.dst), pk), Deliver(c, s, pk);
            && pk.dst in c.nodes
            && Broadcasters(c, s') == Broadcasters(c, s) + (if o.cast == Some(Echo) then {pk.dst} else {})
            && ReadySenders(c, s') == ReadySenders(c, s) + (if o.cast == Some(Ready) then {pk.dst} else {})
  {
    hide RecOf, OutOf, Made, Handled, After, Inv;
    var o, s' := Handled(c, RecOf(s, pk.dst), pk), Deliver(c, s, pk);
    DstIsNode(c, s, pk);
    HandledHandles(c, RecOf(s, pk.dst), pk);
    AfterFacts(c, s, pk, o, s');
  }

  lemma WireFacts(c: Config, s: Sys, pk: Packet)
    requires Inv(c, s) && pk in s.bag
    ensures pk.sender == c.sender && pk.src in c.nodes && pk.dst in c.nodes && (IsTail(pk.kind) <==> pk.src == pk.dst)
    ensures pk.kind == Send ==> pk.dst in SendTargets(c)
    ensures pk.kind == Echo ==> pk.src in Broadcasters(c, s)
    ensures pk.kind == Ready ==> pk.src in ReadySenders(c, s)
  {
    hide RecOf, OutOf, Made, Tally, Flood, Locals, ReadySenders;
    ReadySendersMade(c, s);
    assert Genuine(c, s, pk);
  }

  lemma ReadyIsCaused(c: Config, s: Sys, pk: Packet)
    requires Legal(c) && Inv(c, s) && Caused(c, s) && pk in s.bag
    ensures var s' := Deliver(c, s, pk); ReadySenders(c, s') != {} ==> 2 * |Broadcasters(c, s')| >= |c.nodes| + c.f + 1
  {
    hide RecOf, Deliver, Inv, ReadySenders, Broadcasters;
    hide SendStep, EchoStep, ReadyStep, EchoTailStep, ReadyTailStep, EchoQuorum;
    var rec, s' := RecOf(s, pk.dst), Deliver(c, s, pk);
    SetsAfter(c, s, pk);
    WireFacts(c, s, pk);
    SubsetSize(Broadcasters(c, s), Broadcasters(c, s'));
    if ReadySenders(c, s) == {} && ReadySenders(c, s') != {} {
      TallyFacts(c, s, pk.dst);
      FirstReady(EnvOf(c, pk.dst), rec, pk.src, pk.sender);
      SubsetSize(if pk.kind == Echo then rec.echos + {pk.src} else rec.echos, Broadcasters(c, s));
    }
  }

  lemma EchoIsEntitled(c: Config, s: Sys, pk: Packet)
    requires Legal(c) && Inv(c, s) && Caused(c, s) && pk in s.bag
    ensures Broadcasters(c, Deliver(c, s, pk)) <= AllEchoers(c)
  {
    hide RecOf, Deliver, Inv, ReadySenders, Broadcasters;
    hide SendStep, EchoStep, ReadyStep, EchoTailStep, ReadyTailStep, EchoQuorum;
    SetsAfter(c, s, pk);
    WireFacts(c, s, pk);
    WhyEcho(EnvOf(c, pk.dst), RecOf(s, pk.dst), pk.src, pk.sender);
  }

  lemma EchoIsBacked(c: Config, s: Sys, pk: Packet)
    requires Legal(c) && Inv(c, s) && Caused(c, s) && pk in s.bag && c.flags.singleHop
    ensures var b := Broadcasters(c, Deliver(c, s, pk)); b <= FirstEchoers(c) || |b * FirstEchoers(c)| >= c.f + 1
  {
    hide RecOf, Deliver, Inv, ReadySenders, Broadcasters;
    hide FirstEchoers, SendStep, EchoStep, ReadyStep, EchoTailStep, ReadyTailStep;
    var rec, b, b' := RecOf(s, pk.dst), Broadcasters(c, s), Broadcasters(c, Deliver(c, s, pk));
    var first := FirstEchoers(c);
    SetsAfter(c, s, pk);
    WireFacts(c, s, pk);
    SubsetSize(b * first, b' * first);
    if b <= first && !(b' <= first) {
      assert b * first == b;
      WhyEcho(EnvOf(c, pk.dst), rec, pk.src, pk.sender);
      NeighboursAreFirst(c);
      TallyFacts(c, s, pk.dst);
      if pk.kind == Echo {
        AmplifiedBy(c, s, rec, pk);
      }
    }
  }

  lemma NeighboursAreFirst(c: Config)
    ensures c.nbrs <= FirstEchoers(c)
  {
  }

  /** The f+1 ECHOs that amplification counts are broadcast ones. */
  lemma AmplifiedBy(c: Config, s: Sys, rec: Rec, pk: Packet)
    requires Inv(c, s) && pk in s.bag && pk.kind == Echo && rec == RecOf(s, pk.dst) && !rec.sentEcho
    requires |rec.echos + {pk.src}| >= c.f + 1
    ensures |Broadcasters(c, s)| >= c.f + 1
  {
    hide RecOf, OutOf, Inv, Broadcasters, ReadySenders;
    WireFacts(c, s, pk);
    TallyFacts(c, s, pk.dst);
    OwnNotCounted(c, s, pk.dst);
    SubsetSize(rec.echos + {pk.src}, Broadcasters(c, s));
  }

  lemma OwnNotCounted(c: Config, s: Sys, p: Node)
    requires Inv(c, s) && p in c.nodes
    ensures p in RecOf(s, p).echos ==> RecOf(s, p).sentEcho
  {
    hide RecOf, OutOf, Wire, Tally, Flood, Once, ReadySide, EchoEligible, ReadyEligible;
    assert LocalAt(c, s, p);
  }

  lemma CausedAfter(c: Config, s: Sys, pk: Packet)
    requires Legal(c) && Inv(c, s) && Caused(c, s) && pk in s.bag
    ensures Caused(c, Deliver(c, s, pk))
  {
    hide Deliver, Inv, ReadySenders, Broadcasters, FirstEchoers, AllEchoers, EchoQuorum;
    ReadyIsCaused(c, s, pk);
    EchoIsEntitled(c, s, pk);
    if c.flags.singleHop {
      EchoIsBacked(c, s, pk);
    }
  }

  lemma CountedAfter(c: Config, s: Sys, pk: Packet)
    requires OwnCounted(c, s) && pk in s.bag && pk.dst in c.nodes
    ensures OwnCounted(c, Deliver(c, s, pk))
  {
    hide RecOf, OutOf, Made, After, SendStep, EchoStep, ReadyStep, EchoTailStep, ReadyTailStep;
    var rec := RecOf(s, pk.dst);
    AfterFacts(c, s, pk, Handled(c, rec, pk), Deliver(c, s, pk));
    OwnCountedAfter(EnvOf(c, pk.dst), rec, pk.src, pk.sender);
    OwnCountedAfterReady(EnvOf(c, pk.dst), rec, pk.src, pk.sender);
  }

  // ----- a full tally that was never tested

  /** A committee member holds an ECHO quorum, own ECHO included, and nothing is left to test it. */
  predicate Stalled(c: Config, s: Sys, p: Node) {
    && ReadyEligible(EnvOf(c, p), c.sender) && !RecOf(s, p).sentReady
    && 2 * |RecOf(s, p).echos| >= |c.nodes| + c.f + 1 && Pk(c, EchoTail, p, p) !in s.bag
  }

  predicate Crossed(c: Config, s: Sys, p: Node, q: Node) {
    Stalled(c, s, p) && Stalled(c, s, q) && p in RecOf(s, q).echos && q in RecOf(s, p).echos
  }

  /** Two stalled processes cannot have heard each other. */
  ghost predicate NoMutualStall(c: Config, s: Sys) {
    forall p, q :: p in c.nodes && q in c.nodes && p != q ==> !Crossed(c, s, p, q)
  }

  /** An arriving ECHO is tested, now or by the suspended rest. */
  lemma EchoIsTested(env: Env, rec: Rec, src: Node, sender: Node)
    requires ReadyEligible(env, sender)
    ensures var o := EchoStep(env, rec, src, sender);
            !o.rec.sentReady && 2 * |o.rec.echos| >= |env.ids| + env.f + 1 ==> o.tail == Some(EchoTail)
    ensures var o := EchoTailStep(env, rec, sender);
            !o.rec.sentReady ==> 2 * |o.rec.echos| <= |env.ids| + env.f
  {
    hide EchoEligible, ReadyEligible, EchoQuorum;
  }

  /** The other handlers add at most the own ECHO, and that once. */
  lemma OthersAddOwn(env: Env, rec: Rec, src: Node, sender: Node)
    requires rec.sentEcho && env.me in rec.echos
    ensures SendStep(env, rec, sender).rec.echos == rec.echos
    ensures ReadyStep(env, rec, src, sender).rec.echos == rec.echos
    ensures ReadyTailStep(env, rec).rec.echos == rec.echos
  {
    hide EchoEligible, ReadyEligible, EchoQuorum;
    assert rec.echos + {env.me} == rec.echos;
  }

  /** The process that has just run is stalled: it was before, with the same tally, if its ECHO was
      already out. */
  lemma StillStalled(c: Config, s: Sys, pk: Packet)
    requires Legal(c) && Inv(c, s) && OwnCounted(c, s) && pk in s.bag
    requires Stalled(c, Deliver(c, s, pk), pk.dst) && pk.dst in Broadcasters(c, s)
    ensures Stalled(c, s, pk.dst) && RecOf(Deliver(c, s, pk), pk.dst).echos == RecOf(s, pk.dst).echos
  {
    hide RecOf, OutOf, Inv, After, Broadcasters, SendStep, EchoStep, ReadyStep, EchoTailStep, ReadyTailStep;
    hide EchoQuorum, ReadyEligible;
    var p, s' := pk.dst, Deliver(c, s, pk);
    var rec, o := RecOf(s, p), Handled(c, RecOf(s, p), pk);
    WireFacts(c, s, pk);
    TallyFacts(c, s, p);
    AfterFacts(c, s, pk, o, s');
    EchoIsTested(EnvOf(c, p), rec, pk.src, pk.sender);
    OthersAddOwn(EnvOf(c, p), rec, pk.src, pk.sender);
    HandledHandles(c, rec, pk);
    if o.tail == Some(EchoTail) {
      TailIsOut(c, s, pk, o);
    }
  }

  lemma TailIsOut(c: Config, s: Sys, pk: Packet, o: Outcome)
    requires Inv(c, s) && pk in s.bag && o.tail == Some(EchoTail)
    ensures Pk(c, EchoTail, pk.dst, pk.dst) in After(c, s, pk, o).bag
  {
    hide Inv, RecOf, OutOf, Made;
    var s' := After(c, s, pk, o);
    AfterFacts(c, s, pk, o, s');
    Payloads(c, s, pk);
    EmittedFacts(c, pk.dst, o, pk.sender, pk.payload, Pk(c, EchoTail, pk.dst, pk.dst));
  }

  lemma Payloads(c: Config, s: Sys, pk: Packet)
    requires Inv(c, s) && pk in s.bag
    ensures pk.sender == c.sender && pk.payload == c.payload
  {
    hide Tally, Flood, Once, Locals, Made;
    assert Genuine(c, s, pk);
  }

  /** A process that did not run: its rest of a handler is where it was. */
  lemma SameElsewhere(c: Config, s: Sys, pk: Packet, q: Node)
    requires Legal(c) && Inv(c, s) && pk in s.bag && q != pk.dst
    ensures var s' := Deliver(c, s, pk); RecOf(s', q) == RecOf(s, q) && (Stalled(c, s', q) ==> Stalled(c, s, q))
  {
    hide RecOf, OutOf, Inv, After, Handled, ReadyEligible, EchoQuorum;
    AfterFacts(c, s, pk, Handled(c, RecOf(s, pk.dst), pk), Deliver(c, s, pk));
  }

  lemma StallsAfter(c: Config, s: Sys, pk: Packet)
    requires Legal(c) && Inv(c, s) && OwnCounted(c, s) && NoMutualStall(c, s) && pk in s.bag
    ensures NoMutualStall(c, Deliver(c, s, pk))
  {
    hide RecOf, Inv, Deliver, Stalled, OwnCounted, Broadcasters;
    var s' := Deliver(c, s, pk);
    forall p, q | p in c.nodes && q in c.nodes && p != q
      ensures !Crossed(c, s', p, q)
    {
      if Crossed(c, s', p, q) {
        assert !Crossed(c, s, p, q);
        if p == pk.dst {
          NewlyCrossed(c, s, pk, q);
        } else if q == pk.dst {
          NewlyCrossed(c, s, pk, p);
        } else {
          SameElsewhere(c, s, pk, p);
          SameElsewhere(c, s, pk, q);
        }
      }
    }
  }

  lemma NewlyCrossed(c: Config, s: Sys, pk: Packet, q: Node)
    requires Legal(c) && Inv(c, s) && OwnCounted(c, s) && pk in s.bag && q in c.nodes && q != pk.dst
    requires Crossed(c, Deliver(c, s, pk), pk.dst, q)
    ensures Crossed(c, s, pk.dst, q)
  {
    hide RecOf, Inv, Deliver, Stalled, OwnCounted, Broadcasters;
    SameElsewhere(c, s, pk, q);
    TallyFacts(c, s, q);
    StillStalled(c, s, pk);
  }

  // ----- every run

  ghost predicate Reasons(c: Config, s: Sys) {
    OwnCounted(c, s) && Caused(c, s) && NoMutualStall(c, s)
  }

  lemma ReasonsAfterLose(c: Config, s: Sys, pk: Packet)
    requires Reasons(c, s) && pk in s.bag && !IsTail(pk.kind)
    ensures Reasons(c, Lose(s, pk))
  {
    hide Lose, Made, RecOf, OutOf, EchoQuorum, ReadyEligible, FirstEchoers, AllEchoers;
    var s' := Lose(s, pk);
    LoseFacts(s, pk);
    assert Broadcasters(c, s') == Broadcasters(c, s) && ReadySenders(c, s') == ReadySenders(c, s);
    forall p, q | p in c.nodes && q in c.nodes && p != q
      ensures !Crossed(c, s', p, q)
    {
      assert !Crossed(c, s, p, q);
    }
  }

  lemma StartSets(c: Config)
    requires Legal(c)
    ensures Broadcasters(c, Started(c)) <= {c.sender} && ReadySenders(c, Started(c)) == {}
    ensures c.sender in Broadcasters(c, Started(c)) ==> StartStep(EnvOf(c, c.sender)).cast == Some(Echo)
    ensures forall p :: RecOf(Started(c), p).echos <= {c.sender}
    ensures OwnCounted(c, Started(c))
  {
    hide Started, RecOf, OutOf, EchoEligible, ReadyEligible;
    StartedFacts(c);
  }

  lemma ReasonsStarted(c: Config)
    requires Legal(c)
    ensures Reasons(c, Started(c))
  {
    hide Started, RecOf, OutOf, Broadcasters, ReadySenders, StartStep;
    hide OwnCounted, ReadyEligible, AllEchoers, FirstEchoers;
    StartSets(c);
    StartEchoers(c);
    forall p, q | p in c.nodes && q in c.nodes && p != q
      ensures !Crossed(c, Started(c), p, q)
    {
    }
  }

  lemma StartEchoers(c: Config)
    requires Legal(c)
    ensures StartStep(EnvOf(c, c.sender)).cast == Some(Echo) ==>
              c.sender in AllEchoers(c) && c.sender in FirstEchoers(c)
  {
    hide Committee;
  }

  lemma {:induction false} RunKeepsReasons(c: Config, run: seq<Sys>)
    requires Legal(c) && Run(c, run)
    ensures Reasons(c, run[|run| - 1])
  {
    hide Inv, Deliver, Lose, Started, OwnCounted, Caused, NoMutualStall;
    var n := |run| - 1;
    if n == 0 {
      ReasonsStarted(c);
    } else {
      assert Run(c, run[..n]);
      RunKeepsReasons(c, run[..n]);
      RunKeepsInv(c, run[..n]);
      assert Step(c, run[n - 1], run[n]);
      var pk: Packet :| StepOf(c, run[n - 1], pk, run[n]);
      if run[n] == Deliver(c, run[n - 1], pk) {
        DstIsNode(c, run[n - 1], pk);
        CausedAfter(c, run[n - 1], pk);
        CountedAfter(c, run[n - 1], pk);
        StallsAfter(c, run[n - 1], pk);
      } else {
        ReasonsAfterLose(c, run[n - 1], pk);
      }
    }
  }

  // ----- enough: at rest everybody delivers

  /** At rest a reliable member of the READY committee that hears a quorum has sent READY, unless it
      is stalled. */
  lemma SentOrStalled(c: Config, s: Sys, p: Node)
    requires Legal(c) && Inv(c, s) && OwnCounted(c, s) && Quiescent(c, s) && p in Readiers(c) - c.omit && p in c.nodes
    requires 2 * |Broadcasters(c, s)| >= |c.nodes| + c.f + 1 && p !in ReadySenders(c, s)
    ensures Stalled(c, s, p) && Broadcasters(c, s) <= RecOf(s, p).echos
  {
    hide Inv, RecOf, OutOf, Made, Quiescent, EchoCommittee, ReadyCommittee, EchoSide, EchoQuorum;
    var b := Broadcasters(c, s);
    AtRest(c, s, p);
    TallyFacts(c, s, p);
    NoTail(c, s, p);
    if p in b {
      assert b <= RecOf(s, p).echos;
    } else {
      assert b <= RecOf(s, p).echos - {p};
      SubsetSize(b, RecOf(s, p).echos - {p});
    }
    SubsetSize(b, RecOf(s, p).echos);
  }

  lemma NoTail(c: Config, s: Sys, p: Node)
    requires Quiescent(c, s) && p !in c.omit
    ensures Pk(c, EchoTail, p, p) !in s.bag
  {
  }

  lemma OneStallAtMost(c: Config, s: Sys, p: Node, q: Node)
    requires Legal(c) && Inv(c, s) && Reasons(c, s) && Quiescent(c, s)
    requires 2 * |Broadcasters(c, s)| >= |c.nodes| + c.f + 1
    requires p in Readiers(c) - c.omit && q in Readiers(c) - c.omit && p != q
    requires p !in ReadySenders(c, s)
    ensures q in ReadySenders(c, s)
  {
    hide Inv, RecOf, Quiescent, EchoCommittee, ReadyCommittee, Caused, OwnCounted, ReadySenders, Stalled, EchoQuorum;
    CommitteeSoundness(c, {});
    if q !in ReadySenders(c, s) {
      SentOrStalled(c, s, p);
      SentOrStalled(c, s, q);
      StalledHasEchoed(c, s, p);
      StalledHasEchoed(c, s, q);
    }
  }

  /** Whoever hears a quorum of others' ECHOs has sent READY, so a stalled process counts its own. */
  lemma StalledHasEchoed(c: Config, s: Sys, p: Node)
    requires Legal(c) && Inv(c, s) && Quiescent(c, s) && p in Readiers(c) - c.omit && p in c.nodes
    requires 2 * |Broadcasters(c, s)| >= |c.nodes| + c.f + 1 && Stalled(c, s, p)
    ensures p in Broadcasters(c, s)
  {
    hide Inv, RecOf, OutOf, Made, Quiescent, EchoCommittee, ReadyCommittee, EchoSide, EchoQuorum;
    var b := Broadcasters(c, s);
    AtRest(c, s, p);
    if p !in b {
      assert b <= RecOf(s, p).echos - {p};
      SubsetSize(b, RecOf(s, p).echos - {p});
    }
  }

  lemma QuorumSpreads(c: Config, s: Sys)
    requires Legal(c) && Inv(c, s) && Reasons(c, s) && Quiescent(c, s)
    requires 2 * |Broadcasters(c, s)| >= |c.nodes| + c.f + 1 && FewLost(c, Readiers(c))
    ensures |ReadySenders(c, s)| >= c.f + 1
  {
    hide Inv, Reasons, Quiescent, EchoCommittee, ReadyCommittee, ReadySenders, Broadcasters, EchoQuorum;
    var members := Readiers(c) - c.omit;
    CommitteeSoundness(c, {});
    Survivors(c, Readiers(c));
    if members <= ReadySenders(c, s) {
      SubsetSize(members, ReadySenders(c, s));
    } else {
      var p :| p in members && p !in ReadySenders(c, s);
      forall q | q in members - {p}
        ensures q in ReadySenders(c, s)
      {
        OneStallAtMost(c, s, p, q);
      }
      SurvivorSize(members, {p});
      SubsetSize(members - {p}, ReadySenders(c, s));
    }
  }

  /** With no READY anywhere, everybody who is to echo has. */
  lemma VotersEcho(c: Config, s: Sys, p: Node)
    requires Legal(c) && Inv(c, s) && Quiescent(c, s) && ReadySenders(c, s) == {} && p in Voters(c)
    requires c.flags.singleHop ==> |FirstEchoers(c) - c.omit| >= c.f + 1
    ensures p in Broadcasters(c, s)
  {
    hide Inv, RecOf, OutOf, Made, Quiescent, FirstEchoers, EchoCommittee, ReadyCommittee, ReadySide, EchoQuorum;
    CommitteeSoundness(c, {});
    AtRest(c, s, p);
    assert RecOf(s, p).sentEcho by {
      if c.flags.singleHop && p in Echoers(c) {
        NoReadiesSingleHop(c, s, p);
      } else {
        assert p == c.sender || p in SendTargets(c);
      }
    }
  }

  lemma QuorumOfEchos(c: Config, s: Sys)
    requires Legal(c) && Inv(c, s) && Reasons(c, s) && Quiescent(c, s) && 2 * |Voters(c)| >= |c.nodes| + c.f + 1
    requires c.flags.singleHop ==> |FirstEchoers(c) - c.omit| >= c.f + 1
    ensures 2 * |Broadcasters(c, s)| >= |c.nodes| + c.f + 1
  {
    hide Inv, RecOf, Made, Quiescent, FirstEchoers;
    hide Voters, ReadySenders, Broadcasters, OwnCounted, NoMutualStall, EchoQuorum;
    if ReadySenders(c, s) == {} {
      forall p | p in Voters(c)
        ensures p in Broadcasters(c, s)
      {
        VotersEcho(c, s, p);
      }
      SubsetSize(Voters(c), Broadcasters(c, s));
    }
  }

  /** The losses the broadcast tolerates. */
  ghost predicate Tolerable(c: Config) {
    && FewLost(c, Readiers(c))
    && 2 * |Voters(c)| >= |c.nodes| + c.f + 1
    && (c.flags.singleHop ==> |FirstEchoers(c) - c.omit| >= c.f + 1)
  }

  /** Totality, for every combination of flags and as many losses as can be tolerated. */
  lemma Totality(c: Config, run: seq<Sys>, p: Node)
    requires Legal(c) && Run(c, run) && Quiescent(c, run[|run| - 1]) && Tolerable(c) && p in c.nodes - c.omit
    ensures OutOf(run[|run| - 1], p) == [c.payload]
  {
    hide Quiescent, ReadySenders, FirstEchoers, Voters, Reasons, Step, RecOf;
    hide OutOf, Wire, Flood, Tally, Locals, FewLost, EchoQuorum;
    var s := run[|run| - 1];
    RunKeepsInv(c, run);
    RunKeepsReasons(c, run);
    QuorumOfEchos(c, s);
    QuorumSpreads(c, s);
    ManyReadies(c, s, p);
  }

  // ----- not enough: a run in which the lossy processes lose everything

  /** The lossy processes have taken part in nothing. */
  ghost predicate Dead(c: Config, s: Sys) {
    && (forall p :: p in c.omit ==> RecOf(s, p) == FRESH && p !in Broadcasters(c, s))
    && (forall pk :: pk in s.bag && pk.dst in c.omit ==> !IsTail(pk.kind))
  }

  lemma DeadAfterLose(c: Config, s: Sys, pk: Packet)
    requires Dead(c, s) && pk in s.bag
    ensures Dead(c, Lose(s, pk))
  {
    hide Lose, Made, RecOf, OutOf;
    LoseFacts(s, pk);
  }

  lemma DeadAfterDeliver(c: Config, s: Sys, pk: Packet)
    requires Legal(c) && Inv(c, s) && Dead(c, s) && pk in s.bag && pk.dst !in c.omit
    ensures Dead(c, Deliver(c, s, pk))
  {
    hide Inv, After, Made, RecOf, OutOf, Handled, Emitted, Broadcasters;
    var o, s' := Handled(c, RecOf(s, pk.dst), pk), Deliver(c, s, pk);
    SetsAfter(c, s, pk);
    AfterFacts(c, s, pk, o, s');
    HandledHandles(c, RecOf(s, pk.dst), pk);
    forall x | x in s'.bag && x.dst in c.omit
      ensures !IsTail(x.kind)
    {
      EmittedFacts(c, pk.dst, o, pk.sender, pk.payload, x);
    }
  }

  lemma DeadStart(c: Config)
    requires Legal(c)
    ensures Dead(c, Started(c))
  {
    hide Started, Made, RecOf, OutOf;
    StartedFacts(c);
    assert forall p, k :: Made(Started(c), p, k) ==> p == c.sender by { StartMade(c); }
  }

  lemma StartMade(c: Config)
    requires Legal(c)
    ensures forall p, k :: Made(Started(c), p, k) ==> p == c.sender
  {
    hide Started, RecOf, OutOf, StartStep;
    StartedFacts(c);
  }

  lemma ExtendRun(c: Config, run: seq<Sys>, pk: Packet, s': Sys)
    requires Run(c, run) && StepOf(c, run[|run| - 1], pk, s')
    ensures Run(c, run + [s'])
  {
    hide StepOf, Started;
    var longer := run + [s'];
    forall i | 0 <= i < |longer| - 1
      ensures Step(c, longer[i], longer[i + 1])
    {
      if i < |run| - 1 {
        assert Step(c, run[i], run[i + 1]);
      }
    }
  }

  lemma RunIsNonempty(c: Config, run: seq<Sys>)
    requires Run(c, run)
    ensures run != []
  {
  }

  lemma {:induction false} LoseAll(c: Config, run: seq<Sys>) returns (longer: seq<Sys>)
    requires Legal(c) && Run(c, run) && Dead(c, run[|run| - 1])
    ensures Run(c, longer) && Dead(c, longer[|longer| - 1]) && longer[|longer| - 1].bag == multiset{}
    decreases Measure(c, run[|run| - 1])
  {
    hide Inv, Deliver, Lose, Run, Measure, Legal;
    assert run != [] by { RunIsNonempty(c, run); }
    var s := run[|run| - 1];
    longer := run;
    if s.bag != multiset{} {
      var pk :| pk in s.bag;
      RunKeepsInv(c, run);
      var s' := if pk.dst in c.omit then Lose(s, pk) else Deliver(c, s, pk);
      if pk.dst in c.omit {
        LoseConsumes(c, s, pk);
        DeadAfterLose(c, s, pk);
      } else {
        DeliverConsumes(c, s, pk);
        DeadAfterDeliver(c, s, pk);
      }
      ExtendRun(c, run, pk, s');
      longer := LoseAll(c, run + [s']);
    }
  }

  lemma DeadRun(c: Config) returns (run: seq<Sys>)
    requires Legal(c)
    ensures Run(c, run) && Dead(c, run[|run| - 1]) && Quiescent(c, run[|run| - 1])
  {
    hide Started, Dead, Legal;
    DeadStart(c);
    run := LoseAll(c, [Started(c)]);
  }

  /** Where nobody has sent READY nobody has delivered. */
  lemma NoReadyNoDelivery(c: Config, s: Sys, p: Node)
    requires Legal(c) && Inv(c, s) && ReadySenders(c, s) == {} && p in c.nodes
    ensures OutOf(s, p) == []
  {
    hide RecOf, OutOf, Made, Wire, Flood, Tally, ReadySenders, Broadcasters, EchoSide, EchoEligible, ReadyEligible;
    TallyFacts(c, s, p);
    assert LocalAt(c, s, p);
  }

  /** Too few who can echo: no READY. */
  lemma FewVoters(c: Config, s: Sys)
    requires Caused(c, s) && Dead(c, s) && 2 * |Voters(c)| <= |c.nodes| + c.f
    ensures ReadySenders(c, s) == {}
  {
    hide RecOf, Made, Broadcasters, AllEchoers, ReadySenders, FirstEchoers;
    SubsetSize(Broadcasters(c, s), Voters(c));
  }

  /** Too few who echo on their own account: no READY. */
  lemma FewFirst(c: Config, s: Sys)
    requires Legal(c) && Caused(c, s) && Dead(c, s) && c.flags.singleHop && |FirstEchoers(c) - c.omit| <= c.f
    ensures ReadySenders(c, s) == {}
  {
    hide RecOf, Made, Broadcasters, AllEchoers, ReadySenders, FirstEchoers;
    var b, first := Broadcasters(c, s), FirstEchoers(c);
    SubsetSize(b * first, first - c.omit);
    if b <= first {
      assert b * first == b;
    }
  }

  /** A committee member needs 2f+2 members to send READY. */
  lemma FewMembers(c: Config, run: seq<Sys>, p: Node)
    requires Legal(c) && Run(c, run) && Dead(c, run[|run| - 1]) && !FewLost(c, Readiers(c)) && p in Readiers(c) - c.omit
    ensures !RecOf(run[|run| - 1], p).delivered
  {
    hide RecOf, Step, Inv, EchoCommittee, ReadyCommittee, Broadcasters;
    CommitteeSoundness(c, {});
    assert Readiers(c) == (Readiers(c) - c.omit) + (Readiers(c) * c.omit);
    DeadSendNoReady(c, run[|run| - 1]);
    if RecOf(run[|run| - 1], p).delivered {
      MemberNeedsTwoMore(c, run, p);
      SubsetSize(ReadySenders(c, run[|run| - 1]), Readiers(c) - c.omit);
    }
  }

  /** With |f| members of the READY committee gone the rest cannot deliver. */
  lemma MembersStarve(c: Config) returns (run: seq<Sys>)
    requires Legal(c) && !FewLost(c, Readiers(c))
    ensures Run(c, run) && Quiescent(c, run[|run| - 1])
    ensures forall p :: p in Readiers(c) - c.omit ==> !RecOf(run[|run| - 1], p).delivered
  {
    hide Run, Quiescent, Dead, RecOf, FewLost, Legal, EchoCommittee, ReadyCommittee;
    run := DeadRun(c);
    assert run != [] by { RunIsNonempty(c, run); }
    forall p | p in Readiers(c) - c.omit
      ensures !RecOf(run[|run| - 1], p).delivered
    {
      FewMembers(c, run, p);
    }
  }

  lemma DeadSendNoReady(c: Config, s: Sys)
    requires Dead(c, s)
    ensures ReadySenders(c, s) !! c.omit
  {
    hide RecOf, Broadcasters;
  }

  ghost predicate AllDeliver(c: Config, run: seq<Sys>) {
    Run(c, run) && Quiescent(c, run[|run| - 1]) ==>
      forall p :: p in c.nodes - c.omit ==> OutOf(run[|run| - 1], p) == [c.payload]
  }

  /** Otherwise some reliable process is left without the payload. */
  lemma LossesFail(c: Config, run: seq<Sys>) returns (p: Node)
    requires Legal(c) && Run(c, run) && Dead(c, run[|run| - 1]) && !Tolerable(c)
    ensures p in c.nodes - c.omit && OutOf(run[|run| - 1], p) == []
  {
    hide Step, RecOf, OutOf, Dead, FewLost, FirstEchoers;
    hide Voters, ReadySenders, Caused, OwnCounted, NoMutualStall, EchoQuorum;
    hide Wire, Flood, Tally, Locals, EchoCommittee, ReadyCommittee;
    var s := run[|run| - 1];
    RunKeepsInv(c, run);
    RunKeepsReasons(c, run);
    CommitteeSoundness(c, {});
    p := c.sender;
    if 2 * |Voters(c)| <= |c.nodes| + c.f {
      FewVoters(c, s);
      NoReadyNoDelivery(c, s, p);
    } else if c.flags.singleHop && |FirstEchoers(c) - c.omit| <= c.f {
      FewFirst(c, s);
      NoReadyNoDelivery(c, s, p);
    } else if Readiers(c) <= c.omit {
      NoMembers(c, s);
      NoReadyNoDelivery(c, s, p);
    } else {
      assert Readiers(c) - c.omit != {};
      p :| p in Readiers(c) - c.omit;
      FewMembers(c, run, p);
    }
  }

  lemma NoMembers(c: Config, s: Sys)
    requires Legal(c) && Inv(c, s) && Dead(c, s) && Readiers(c) <= c.omit
    ensures ReadySenders(c, s) == {}
  {
    hide RecOf, Inv, EchoCommittee, ReadyCommittee, Broadcasters, ReadySenders, Dead;
    DeadSendNoReady(c, s);
    MembersOnly(c, s);
  }

  lemma MembersOnly(c: Config, s: Sys)
    requires Legal(c) && Inv(c, s)
    ensures ReadySenders(c, s) <= Readiers(c)
  {
    hide RecOf, Inv, EchoCommittee;
    forall q | q in ReadySenders(c, s)
      ensures q in Readiers(c)
    {
      OwnObligations(c, s, q);
    }
  }

  lemma AllDelivered(c: Config, run: seq<Sys>)
    requires Legal(c) && Tolerable(c)
    ensures AllDeliver(c, run)
  {
    hide Step, Quiescent, OutOf, Tolerable;
    if Run(c, run) && Quiescent(c, run[|run| - 1]) {
      forall p | p in c.nodes - c.omit
        ensures OutOf(run[|run| - 1], p) == [c.payload]
      {
        Totality(c, run, p);
      }
    }
  }

  /** Exactly which losses are tolerated, for every combination of flags: all reliable processes
      deliver in every run at rest if and only if fewer than |f| members of the READY committee are
      lossy, the reliable processes that are to echo make up a quorum, and in single-hop mode f+1
      of them echo on their own account. */
  lemma TotalityExact(c: Config)
    requires Legal(c)
    ensures (forall run: seq<Sys> :: AllDeliver(c, run)) <==> Tolerable(c)
  {
    hide Run, Quiescent, OutOf, Tolerable, Dead;
    if Tolerable(c) {
      forall run: seq<Sys>
        ensures AllDeliver(c, run)
      {
        AllDelivered(c, run);
      }
    } else {
      var run := DeadRun(c);
      var p := LossesFail(c, run);
      assert !AllDeliver(c, run);
    }
  }
}
