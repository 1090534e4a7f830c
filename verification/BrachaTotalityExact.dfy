/** The exact system sizes for totality of the plain Bracha broadcast under Byzantine processes. */
module BrachaTotalityExact {
  import opened Base
  import opened BrachaRecord
  import opened Bracha
  import opened BrachaByzantine
  import opened BrachaGuarantees
  import opened BrachaTermination

  // ----- what was sent has arrived, and only that

  predicate Arrived(s: Sys, pk: Packet) {
    match pk.kind
    case Send => RecOf(s, pk.dst).seen
    case Echo => pk.src in RecOf(s, pk.dst).echos
    case Ready => pk.src in RecOf(s, pk.dst).readys
    case _ => true
  }

  /** Every message to a correct process is in flight or recorded. */
  ghost predicate Landed(c: Config, s: Sys) {
    forall pk :: pk in s.log && pk.dst in c.correct ==> pk in s.bag || Arrived(s, pk)
  }

  ghost predicate WasSent(s: Sys, kind: Kind, src: Node, dst: Node) {
    exists pk :: pk in s.log && pk.kind == kind && pk.src == src && pk.dst == dst
  }

  ghost predicate ReadysSent(c: Config, s: Sys) {
    forall p, r :: p in c.correct && r in RecOf(s, p).readys ==> WasSent(s, Ready, r, p)
  }

  lemma LandedAfter(c: Config, s: Sys, pk: Packet)
    requires Legal(c) && Inv(c, s) && Landed(c, s) && pk in s.bag
    ensures Landed(c, Deliver(c, s, pk))
  {
    hide Log, Tally, Flood, Locals, Causes, NoMutualStall, Handled, RecOf, After, Genuine, Emitted, Logged;
    var o, s' := Handled(c, RecOf(s, pk.dst), pk), Deliver(c, s, pk);
    HandledHandles(c, RecOf(s, pk.dst), pk);
    AfterFacts(c, s, pk, o, s');
    forall x | x in s'.log && x.dst in c.correct
      ensures x in s'.bag || Arrived(s', x)
    {
      EmittedFacts(c, pk.dst, o, pk.body, x);
    }
  }

  lemma ReadysSentAfter(c: Config, s: Sys, pk: Packet)
    requires Legal(c) && Inv(c, s) && ReadysSent(c, s) && pk in s.bag
    ensures ReadysSent(c, Deliver(c, s, pk))
  {
    hide Log, Tally, Flood, Locals, Causes, NoMutualStall, Handled, RecOf, After, Genuine, Emitted, Logged;
    var o, s' := Handled(c, RecOf(s, pk.dst), pk), Deliver(c, s, pk);
    HandledHandles(c, RecOf(s, pk.dst), pk);
    AfterFacts(c, s, pk, o, s');
    forall p, r | p in c.correct && r in RecOf(s', p).readys
      ensures WasSent(s', Ready, r, p)
    {
      if r in RecOf(s, p).readys {
        var x :| x in s.log && x.kind == Ready && x.src == r && x.dst == p;
        assert x in s'.log;
      } else {
        assert pk in s'.log;
      }
    }
  }

  lemma LandedAfterInject(c: Config, s: Sys, pk: Packet)
    requires Landed(c, s) && ReadysSent(c, s)
    ensures Landed(c, Inject(s, pk)) && ReadysSent(c, Inject(s, pk))
  {
    hide RecOf, Inject;
    var s' := Inject(s, pk);
    InjectFacts(s, pk);
    forall p, r | p in c.correct && r in RecOf(s', p).readys
      ensures WasSent(s', Ready, r, p)
    {
      var x :| x in s.log && x.kind == Ready && x.src == r && x.dst == p;
      assert x in s'.log;
    }
  }

  lemma LandedStarted(c: Config)
    requires Legal(c)
    ensures Landed(c, Started(c)) && ReadysSent(c, Started(c))
  {
    if c.origin.Some? {
      LandedStartedBy(c, c.origin.value);
    }
  }

  lemma LandedStartedBy(c: Config, o: Node)
    requires Legal(c) && c.origin == Some(o)
    ensures Landed(c, Started(c)) && ReadysSent(c, Started(c))
  {
    hide Started, RecOf;
    StartedFacts(c, o);
    assert StartStep(EnvOf(c, o)).rec.readys == {};
  }

  lemma {:induction false} RunKeepsLanded(c: Config, run: seq<Sys>)
    requires Legal(c) && Run(c, run)
    ensures Landed(c, run[|run| - 1]) && ReadysSent(c, run[|run| - 1])
  {
    hide Inv, Deliver, Inject, MayInject, Started, Landed, ReadysSent;
    var n := |run| - 1;
    if n == 0 {
      LandedStarted(c);
    } else {
      assert Run(c, run[..n]);
      RunKeepsLanded(c, run[..n]);
      RunKeepsInv(c, run[..n]);
      assert Step(c, run[n - 1], run[n]);
      var pk: Packet :| StepOf(c, run[n - 1], pk, run[n]);
      if pk in run[n - 1].bag && run[n] == Deliver(c, run[n - 1], pk) {
        LandedAfter(c, run[n - 1], pk);
        ReadysSentAfter(c, run[n - 1], pk);
      } else {
        LandedAfterInject(c, run[n - 1], pk);
      }
    }
  }

  // ----- a run that divides the correct processes

  /** What the liars send: a SEND and their ECHOs to everybody, their READYs to |p| alone. */
  function Lies(c: Config, p: Node): set<Packet> {
    (set l, q | l in c.liars && q in c.correct :: Packet(Send, l, q, "")) +
    (set l, q | l in c.liars && q in c.correct :: Packet(Echo, l, q, "")) +
    (set l | l in c.liars :: Packet(Ready, l, p, ""))
  }

  lemma {:induction false} InjectAll(c: Config, run: seq<Sys>, lies: set<Packet>) returns (longer: seq<Sys>)
    requires Run(c, run) && forall x :: x in lies ==> MayInject(c, x)
    ensures Run(c, longer) && longer[|longer| - 1].log == run[|run| - 1].log + lies
    decreases |lies|
  {
    hide Run, MayInject, Deliver;
    assert run != [] by { RunIsNonempty(c, run); }
    if lies == {} {
      longer := run;
    } else {
      var x :| x in lies;
      var s := run[|run| - 1];
      ExtendRun(c, run, x, Inject(s, x));
      longer := InjectAll(c, run + [Inject(s, x)], lies - {x});
      assert s.log + {x} + (lies - {x}) == s.log + lies;
    }
  }

  lemma LiesMayBeTold(c: Config, p: Node)
    requires Legal(c) && p in c.correct
    ensures forall x :: x in Lies(c, p) ==> MayInject(c, x)
  {
  }

  lemma StartHasNoLies(c: Config)
    requires Legal(c)
    ensures forall x :: x in Started(c).log ==> x.src !in c.liars
  {
    if c.origin.Some? {
      StartedLog(c, c.origin.value);
    }
  }

  lemma StartedLog(c: Config, o: Node)
    requires Legal(c) && c.origin == Some(o)
    ensures forall x :: x in Started(c).log ==> x.src !in c.liars
  {
    hide Started;
    StartedFacts(c, o);
  }

  lemma StartRun(c: Config)
    ensures Run(c, [Started(c)])
  {
  }

  /** A run at rest in which the liars have told exactly these lies. */
  lemma DividingRun(c: Config, p: Node) returns (run: seq<Sys>)
    requires Legal(c) && p in c.correct
    ensures Run(c, run) && Quiescent(run[|run| - 1])
    ensures forall x: Packet :: x.src in c.liars ==> (x in run[|run| - 1].log <==> x in Lies(c, p))
  {
    hide Run, Started, MayInject, Lies, Quiescent, Legal;
    StartRun(c);
    StartHasNoLies(c);
    LiesMayBeTold(c, p);
    var lied := InjectAll(c, [Started(c)], Lies(c, p));
    assert lied != [] by { RunIsNonempty(c, lied); }
    run := ExtendToRest(c, lied);
  }

  /** In that run every correct process hears everybody's ECHO and sends READY. */
  lemma AllSendReady(c: Config, s: Sys, p: Node, r: Node)
    requires Legal(c) && Inv(c, s) && Landed(c, s) && Quiescent(s) && r in c.correct
    requires c.liars == Faulty(c) && c.liars != {} && c.f >= 1 && |c.nodes| >= 2 * c.f + 2
    requires Lies(c, p) <= s.log
    ensures RecOf(s, r).sentReady
  {
    hide Inv, RecOf, OutOf, Said, Words, Lies;
    forall q | q in c.correct
      ensures RecOf(s, q).sentEcho
    {
      LiesHeard(c, s, p, q);
      AtRest(c, s, q);
    }
    LiesHeard(c, s, p, r);
    AtRest(c, s, r);
    assert c.nodes - {r} <= RecOf(s, r).echos - {r};
    SubsetSize(c.nodes - {r}, RecOf(s, r).echos - {r});
    assert 2 * |RecOf(s, r).echos - {r}| >= |c.nodes| + c.f + 1;
  }

  lemma LiesHeard(c: Config, s: Sys, p: Node, r: Node)
    requires Landed(c, s) && Quiescent(s) && r in c.correct && Lies(c, p) <= s.log && c.liars != {}
    ensures RecOf(s, r).seen && c.liars <= RecOf(s, r).echos
    ensures r == p ==> c.liars <= RecOf(s, r).readys
  {
    hide RecOf;
    var l :| l in c.liars;
    assert Packet(Send, l, r, "") in Lies(c, p);
    assert Arrived(s, Packet(Send, l, r, ""));
    forall k | k in c.liars
      ensures k in RecOf(s, r).echos && (r == p ==> k in RecOf(s, r).readys)
    {
      assert Packet(Echo, k, r, "") in Lies(c, p) && Packet(Ready, k, p, "") in Lies(c, p);
      assert Arrived(s, Packet(Echo, k, r, "")) && (r == p ==> Arrived(s, Packet(Ready, k, p, "")));
    }
  }

  /** Between 2f+2 and 3f+1 processes, f of them Byzantine, one correct process can deliver while
      another never does. */
  lemma TotalityFails(c: Config, p: Node, q: Node) returns (run: seq<Sys>)
    requires Legal(c) && c.liars == Faulty(c) && |Faulty(c)| == c.f && c.f >= 1
    requires 2 * c.f + 2 <= |c.nodes| <= 3 * c.f + 1
    requires p in c.correct && q in c.correct && p != q
    ensures Run(c, run) && Quiescent(run[|run| - 1])
    ensures RecOf(run[|run| - 1], p).delivered && !RecOf(run[|run| - 1], q).delivered
  {
    hide Inv, Quiescent, RecOf, Landed, ReadysSent, Step, Lies;
    run := DividingRun(c, p);
    var s := run[|run| - 1];
    RunKeepsInv(c, run);
    RunKeepsLanded(c, run);
    assert Lies(c, p) <= s.log by { LiesAreLogged(c, s, p); }
    assert Readiers(c, s) == c.correct by {
      forall r | r in c.correct ensures RecOf(s, r).sentReady { AllSendReady(c, s, p, r); }
    }
    FavouredDelivers(c, s, p);
    if RecOf(s, q).delivered {
      DeliveryNeedsByzantineReady(c, run, q);
      NoReadyForOthers(c, s, p, q);
    }
  }

  lemma LiesAreLogged(c: Config, s: Sys, p: Node)
    requires forall x: Packet :: x.src in c.liars ==> (x in s.log <==> x in Lies(c, p))
    ensures Lies(c, p) <= s.log
  {
  }

  lemma FavouredDelivers(c: Config, s: Sys, p: Node)
    requires Legal(c) && Inv(c, s) && Landed(c, s) && Quiescent(s) && p in c.correct
    requires c.liars == Faulty(c) && c.liars != {} && |c.nodes| >= 2 * c.f + 2
    requires Lies(c, p) <= s.log && Readiers(c, s) == c.correct
    ensures RecOf(s, p).delivered
  {
    hide Inv, RecOf, Said, Lies, Readiers;
    LiesHeard(c, s, p, p);
    AtRest(c, s, p);
    assert c.nodes - {p} <= RecOf(s, p).readys;
    SubsetSize(c.nodes - {p}, RecOf(s, p).readys);
  }

  lemma NoReadyForOthers(c: Config, s: Sys, p: Node, q: Node)
    requires ReadysSent(c, s) && q in c.correct && p != q
    requires forall x: Packet :: x.src in c.liars ==> (x in s.log <==> x in Lies(c, p))
    ensures RecOf(s, q).readys * c.liars == {}
  {
    hide RecOf;
    forall l | l in RecOf(s, q).readys
      ensures l !in c.liars
    {
      assert WasSent(s, Ready, l, q);
    }
  }

  /** With 2f+1 processes or fewer nobody ever delivers. */
  lemma NobodyDelivers(c: Config, run: seq<Sys>, p: Node)
    requires Legal(c) && Run(c, run) && |c.nodes| <= 2 * c.f + 1 && p in c.correct
    ensures !RecOf(run[|run| - 1], p).delivered
  {
    hide Inv, RecOf, Said, Step;
    var s := run[|run| - 1];
    RunKeepsInv(c, run);
    Obligations(c, s, p);
    SubsetSize(RecOf(s, p).readys, c.nodes - {p});
  }

  ghost predicate AllOrNone(c: Config, run: seq<Sys>) {
    Run(c, run) && Quiescent(run[|run| - 1]) ==>
      forall p, q :: p in c.correct && q in c.correct && RecOf(run[|run| - 1], p).delivered
        ==> RecOf(run[|run| - 1], q).delivered
  }

  /** Exactly when |f| Byzantine processes cannot divide the correct ones: from 3f+2 processes on,
      and trivially up to 2f+1, where nobody ever delivers. */
  lemma TotalityExact(c: Config)
    requires Legal(c) && c.liars == Faulty(c) && |Faulty(c)| == c.f
    ensures (forall run: seq<Sys> :: AllOrNone(c, run)) <==> |c.nodes| >= 3 * c.f + 2 || |c.nodes| <= 2 * c.f + 1
  {
    hide Run, Quiescent, RecOf;
    if |c.nodes| >= 3 * c.f + 2 || |c.nodes| <= 2 * c.f + 1 {
      forall run: seq<Sys>
        ensures AllOrNone(c, run)
      {
        Undivided(c, run);
      }
    } else {
      assert |c.correct| >= 2 by {
        SurvivorSize(c.nodes, Faulty(c));
        assert c.nodes - Faulty(c) == c.correct;
      }
      var p :| p in c.correct;
      SurvivorSize(c.correct, {p});
      var q :| q in c.correct - {p};
      var run := TotalityFails(c, p, q);
      assert !AllOrNone(c, run);
    }
  }

  lemma Undivided(c: Config, run: seq<Sys>)
    requires Legal(c) && (|c.nodes| >= 3 * c.f + 2 || |c.nodes| <= 2 * c.f + 1)
    ensures AllOrNone(c, run)
  {
    hide Quiescent, RecOf, Step;
    if Run(c, run) && Quiescent(run[|run| - 1]) {
      forall p, q | p in c.correct && q in c.correct && RecOf(run[|run| - 1], p).delivered
        ensures RecOf(run[|run| - 1], q).delivered
      {
        if |c.nodes| >= 3 * c.f + 2 {
          Totality(c, run, |run| - 1, p, q);
        } else {
          NobodyDelivers(c, run, p);
        }
      }
    }
  }
}
