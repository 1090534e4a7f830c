/** Every optimized Bracha broadcast comes to rest. */
module BrachaOptimizedTermination {
  import opened Base
  import opened Bags
  import opened BrachaRecord
  import opened BrachaOptimized
  import opened BrachaOptimizedRun

  /** What a process may still send: an ECHO on its first SEND, one on account of the amplification
      rules, its READY, and the rests of the last two handlers. */
  function Due(c: Config, rec: Rec): nat {
    (if rec.seen then 0 else |c.nodes|) +
    (if rec.sentEcho then 0 else |c.nodes| + 1) +
    (if rec.sentReady then 0 else |c.nodes| + 1)
  }

  ghost function DueOf(c: Config, s: Sys): Node -> nat { p => Due(c, RecOf(s, p)) }

  ghost function Measure(c: Config, s: Sys): nat {
    |s.bag| + Sum(multiset(c.nodes), DueOf(c, s))
  }

  lemma FanoutSize(kind: Kind, src: Node, targets: set<Node>, sender: Node, payload: string)
    ensures |Fanout(kind, src, targets, sender, payload)| <= |targets|
  {
    var copies := set q | q in targets && q != src :: Packet(kind, src, q, sender, payload);
    CopiesSize(kind, src, targets, sender, payload);
    assert |multiset(copies)| == |copies|;
  }

  lemma {:induction false} CopiesSize(kind: Kind, src: Node, targets: set<Node>, sender: Node, payload: string)
    ensures |set q | q in targets && q != src :: Packet(kind, src, q, sender, payload)| <= |targets|
  {
    var copies := set q | q in targets && q != src :: Packet(kind, src, q, sender, payload);
    if targets != {} {
      var t :| t in targets;
      var fewer := set q | q in targets - {t} && q != src :: Packet(kind, src, q, sender, payload);
      CopiesSize(kind, src, targets - {t}, sender, payload);
      assert copies <= fewer + {Packet(kind, src, t, sender, payload)};
      SubsetSize(copies, fewer + {Packet(kind, src, t, sender, payload)});
    } else {
      assert copies == {};
    }
  }

  lemma EmittedSize(c: Config, p: Node, o: Outcome, sender: Node, payload: string)
    ensures |Emitted(c, p, o, sender, payload)| <=
              (if o.cast.Some? then |c.nodes| else 0) + if o.tail.Some? then 1 else 0
  {
    hide Fanout;
    if o.cast.Some? {
      FanoutSize(o.cast.value, p, c.nodes, sender, payload);
    }
  }

  predicate Paid(c: Config, rec: Rec, o: Outcome) {
    (if o.cast.Some? then |c.nodes| else 0) + (if o.tail.Some? then 1 else 0) + Due(c, o.rec) <= Due(c, rec)
  }

  lemma SendIsPaid(c: Config, env: Env, rec: Rec, src: Node, sender: Node)
    ensures Paid(c, rec, SendStep(env, rec, sender))
    ensures Paid(c, rec, EchoTailStep(env, rec, sender))
    ensures Paid(c, rec, ReadyTailStep(env, rec))
  {
    hide EchoEligible, ReadyEligible, EchoQuorum;
  }

  lemma EchoIsPaid(c: Config, env: Env, rec: Rec, src: Node, sender: Node)
    ensures Paid(c, rec, EchoStep(env, rec, src, sender))
    ensures Paid(c, rec, ReadyStep(env, rec, src, sender))
  {
    hide EchoEligible, ReadyEligible, EchoQuorum;
  }

  /** What a handler run sends is no longer due. */
  lemma HandlingIsPaid(c: Config, rec: Rec, pk: Packet)
    ensures Paid(c, rec, Handled(c, rec, pk))
  {
    hide SendStep, EchoStep, ReadyStep, EchoTailStep, ReadyTailStep, Paid;
    SendIsPaid(c, EnvOf(c, pk.dst), rec, pk.src, pk.sender);
    EchoIsPaid(c, EnvOf(c, pk.dst), rec, pk.src, pk.sender);
  }

  lemma BagAfter(c: Config, s: Sys, pk: Packet, o: Outcome)
    requires pk in s.bag
    ensures |After(c, s, pk, o).bag| == |s.bag| - 1 + |Emitted(c, pk.dst, o, pk.sender, pk.payload)|
  {
    hide Emitted;
    var e := Emitted(c, pk.dst, o, pk.sender, pk.payload);
    assert After(c, s, pk, o).bag == s.bag - multiset{pk} + e;
    assert |s.bag - multiset{pk}| == |s.bag| - 1;
  }

  lemma DstIsNode(c: Config, s: Sys, pk: Packet)
    requires Legal(c) && Inv(c, s) && pk in s.bag
    ensures pk.dst in c.nodes
  {
    hide Tally, Flood, Once, Locals, Made;
    assert Genuine(c, s, pk);
  }

  lemma DeliverConsumes(c: Config, s: Sys, pk: Packet)
    requires Legal(c) && Inv(c, s) && pk in s.bag
    ensures Measure(c, Deliver(c, s, pk)) < Measure(c, s)
  {
    hide Inv, Handled, RecOf, OutOf, Emitted, After, Due, Sum;
    var o, s' := Handled(c, RecOf(s, pk.dst), pk), Deliver(c, s, pk);
    DstIsNode(c, s, pk);
    HandlingIsPaid(c, RecOf(s, pk.dst), pk);
    EmittedSize(c, pk.dst, o, pk.sender, pk.payload);
    BagAfter(c, s, pk, o);
    AfterFacts(c, s, pk, o, s');
    SumChange(c.nodes, DueOf(c, s), DueOf(c, s'), pk.dst);
  }

  lemma LoseConsumes(c: Config, s: Sys, pk: Packet)
    requires pk in s.bag
    ensures Measure(c, Lose(s, pk)) < Measure(c, s)
  {
    hide Due, Sum;
    SumSame(multiset(c.nodes), DueOf(c, s), DueOf(c, Lose(s, pk)));
    assert |s.bag - multiset{pk}| == |s.bag| - 1;
  }

  lemma StartMeasure(c: Config)
    requires Legal(c)
    ensures Measure(c, Started(c)) <= |c.nodes| * (3 * |c.nodes| + 4) + 1
  {
    hide Due, RecOf, Sum, Exec;
    var n, s := |c.nodes|, Started(c);
    var most := 3 * n + 2;
    StartBag(c);
    forall p
      ensures Due(c, RecOf(s, p)) <= most
    {
      DueBound(c, RecOf(s, p));
    }
    SumBound(c.nodes, DueOf(c, s), most);
    TwoMore(n, most);
    assert 3 * n + 4 == most + 2;
  }

  lemma TwoMore(n: nat, k: nat)
    ensures n * (k + 2) == n * k + 2 * n
  {
  }

  lemma DueBound(c: Config, rec: Rec)
    ensures Due(c, rec) <= 3 * |c.nodes| + 2
  {
  }

  lemma StartBag(c: Config)
    requires Legal(c)
    ensures |Started(c).bag| <= 2 * |c.nodes| + 1
  {
    hide Fanout, Emitted, StartStep;
    var o := StartStep(EnvOf(c, c.sender));
    FanoutSize(Send, c.sender, SendTargets(c), c.sender, c.payload);
    SubsetSize(SendTargets(c), c.nodes);
    EmittedSize(c, c.sender, o, c.sender, c.payload);
  }

  /** Every run is finite: with n processes it has at most n(3n+4)+1 steps. */
  lemma {:induction false} BroadcastTerminates(c: Config, run: seq<Sys>)
    requires Legal(c) && Run(c, run)
    ensures |run| - 1 + Measure(c, run[|run| - 1]) <= |c.nodes| * (3 * |c.nodes| + 4) + 1
  {
    hide Inv, Deliver, Lose, Started, Measure;
    var n := |run| - 1;
    if n == 0 {
      StartMeasure(c);
    } else {
      assert Run(c, run[..n]);
      BroadcastTerminates(c, run[..n]);
      RunKeepsInv(c, run[..n]);
      assert Step(c, run[n - 1], run[n]);
      var pk: Packet :| StepOf(c, run[n - 1], pk, run[n]);
      if run[n] == Deliver(c, run[n - 1], pk) {
        DeliverConsumes(c, run[n - 1], pk);
      } else {
        LoseConsumes(c, run[n - 1], pk);
      }
    }
  }
}
