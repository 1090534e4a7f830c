/** Every plain Bracha broadcast comes to rest once the Byzantine processes stop sending, and any
    run can be carried on until it does. */
module BrachaTermination {
  import opened Base
  import opened Bags
  import opened BrachaRecord
  import opened Bracha
  import opened BrachaByzantine

  /** What a process may still send: its ECHO, its READY, and the rest of the READY handler. */
  function Due(c: Config, rec: Rec): nat {
    (if rec.sentEcho then 0 else |c.correct|) + (if rec.sentReady then 0 else |c.correct| + 1)
  }

  ghost function DueOf(c: Config, s: Sys): Node -> nat { p => Due(c, RecOf(s, p)) }

  /** Deliveries still possible: what is in flight and what may still be sent. */
  ghost function Measure(c: Config, s: Sys): nat {
    |s.bag| + Sum(multiset(c.correct), DueOf(c, s))
  }

  lemma {:induction false} CopiesSize(kind: Kind, src: Node, targets: set<Node>, body: string)
    ensures |Copies(kind, src, targets, body)| <= |targets|
  {
    var copies := Copies(kind, src, targets, body);
    if targets != {} {
      var t :| t in targets;
      CopiesSize(kind, src, targets - {t}, body);
      assert copies <= Copies(kind, src, targets - {t}, body) + {Packet(kind, src, t, body)};
      SubsetSize(copies, Copies(kind, src, targets - {t}, body) + {Packet(kind, src, t, body)});
    } else {
      assert copies == {};
    }
  }

  lemma EmittedSize(c: Config, p: Node, o: Outcome, body: string)
    ensures |Emitted(c, p, o, body)| <= (if o.cast.Some? then |c.correct| else 0) + if o.tail.Some? then 1 else 0
  {
    if o.cast.Some? {
      CopiesSize(o.cast.value, p, c.correct, body);
    }
  }

  lemma TailNeedsReady(c: Config, rec: Rec, pk: Packet)
    ensures Handled(c, rec, pk).tail.Some? ==> Handled(c, rec, pk).cast == Some(Ready)
  {
  }

  /** What a handler run sends is no longer due. */
  lemma SendingIsPaid(c: Config, s: Sys, pk: Packet)
    requires Inv(c, s) && pk in s.bag
    ensures var o := Handled(c, RecOf(s, pk.dst), pk);
            pk.dst in c.correct && |Emitted(c, pk.dst, o, pk.body)| + Due(c, o.rec) <= Due(c, RecOf(s, pk.dst))
  {
    hide Log, Tally, Flood, Causes, NoMutualStall, Handled, RecOf, Emitted, Said, EchoQuorum;
    var o := Handled(c, RecOf(s, pk.dst), pk);
    DeliveryIsClean(c, s, pk);
    EmittedSize(c, pk.dst, o, pk.body);
    TailNeedsReady(c, RecOf(s, pk.dst), pk);
  }

  lemma BagAfter(c: Config, s: Sys, pk: Packet, o: Outcome)
    requires pk in s.bag
    ensures |After(c, s, pk, o).bag| == |s.bag| - 1 + |Emitted(c, pk.dst, o, pk.body)|
  {
    hide Emitted;
    var e := multiset(Emitted(c, pk.dst, o, pk.body));
    assert After(c, s, pk, o).bag == s.bag - multiset{pk} + e;
    assert |s.bag - multiset{pk}| == |s.bag| - 1;
  }

  lemma DeliverConsumes(c: Config, s: Sys, pk: Packet)
    requires Inv(c, s) && pk in s.bag
    ensures Measure(c, Deliver(c, s, pk)) < Measure(c, s)
  {
    hide Inv, Handled, RecOf, Emitted, After, Due, Sum;
    var o, s' := Handled(c, RecOf(s, pk.dst), pk), Deliver(c, s, pk);
    SendingIsPaid(c, s, pk);
    BagAfter(c, s, pk, o);
    AfterFacts(c, s, pk, o, s');
    SumChange(c.correct, DueOf(c, s), DueOf(c, s'), pk.dst);
  }

  lemma TwoMore(n: nat, k: nat)
    ensures n * (k + 2) == n * k + 2 * n
  {
  }

  lemma StartMeasure(c: Config)
    requires Legal(c)
    ensures Measure(c, Started(c)) <= |c.correct| * (2 * |c.correct| + 3)
  {
    hide Due, RecOf, Sum, Exec;
    var n, s := |c.correct|, Started(c);
    StartBag(c);
    forall p
      ensures Due(c, RecOf(s, p)) <= 2 * n + 1
    {
      DueBound(c, RecOf(s, p));
    }
    SumBound(c.correct, DueOf(c, s), 2 * n + 1);
    TwoMore(n, 2 * n + 1);
  }

  lemma DueBound(c: Config, rec: Rec)
    ensures Due(c, rec) <= 2 * |c.correct| + 1
  {
  }

  lemma StartBag(c: Config)
    ensures |Started(c).bag| <= 2 * |c.correct|
  {
    hide Copies;
    if c.origin.Some? {
      var o := c.origin.value;
      CopiesSize(Send, o, c.correct, c.body);
      CopiesSize(Echo, o, c.correct, c.body);
    }
  }

  /** Without Byzantine messages every run is finite: with n correct processes it has at most
      n(2n+3) deliveries. */
  lemma {:induction false} BroadcastTerminates(c: Config, run: seq<Sys>)
    requires Legal(c) && c.liars == {} && Run(c, run)
    ensures |run| - 1 + Measure(c, run[|run| - 1]) <= |c.correct| * (2 * |c.correct| + 3)
  {
    hide Inv, Deliver, Inject, Started, Measure;
    var n := |run| - 1;
    if n == 0 {
      StartMeasure(c);
    } else {
      assert Run(c, run[..n]);
      BroadcastTerminates(c, run[..n]);
      RunKeepsInv(c, run[..n]);
      assert Step(c, run[n - 1], run[n]);
      var pk: Packet :| StepOf(c, run[n - 1], pk, run[n]);
      DeliverConsumes(c, run[n - 1], pk);
    }
  }

  // ----- carrying a run on

  lemma ExtendRun(c: Config, run: seq<Sys>, pk: Packet, s': Sys)
    requires Run(c, run) && StepOf(c, run[|run| - 1], pk, s')
    ensures Run(c, run + [s'])
  {
    hide StepOf, Started;
    var longer := run + [s'];
    forall i | 0 <= i < |longer| - 1
      ensures Step(c, longer[i], longer[i + 1])
    {
      if i < |run| - 1 {
        assert Step(c, run[i], run[i + 1]);
      }
    }
  }

  /** Only correct processes send anything between the two states. */
  predicate NoLies(c: Config, s: Sys, s': Sys) {
    s.log <= s'.log && forall x :: x in s'.log && x.src in c.liars ==> x in s.log
  }

  lemma DeliverTellsNoLies(c: Config, s: Sys, pk: Packet)
    requires Legal(c) && Inv(c, s) && pk in s.bag
    ensures NoLies(c, s, Deliver(c, s, pk))
  {
    hide Log, Tally, Flood, Locals, Causes, NoMutualStall, Handled, RecOf, After, Genuine;
    var o := Handled(c, RecOf(s, pk.dst), pk);
    AfterFacts(c, s, pk, o, Deliver(c, s, pk));
  }

  /** Any run can be carried on, without further Byzantine messages, until all is delivered. */
  lemma {:induction false} ExtendToRest(c: Config, run: seq<Sys>) returns (longer: seq<Sys>)
    requires Legal(c) && Run(c, run)
    ensures Run(c, longer) && |longer| >= |run| && longer[..|run|] == run
    ensures Quiescent(longer[|longer| - 1]) && NoLies(c, run[|run| - 1], longer[|longer| - 1])
    decreases Measure(c, run[|run| - 1])
  {
    hide Inv, Deliver, Measure, Run, Legal;
    assert run != [] by { RunIsNonempty(c, run); }
    var s := run[|run| - 1];
    if s.bag == multiset{} {
      longer := run;
    } else {
      var pk :| pk in s.bag;
      RunKeepsInv(c, run);
      DeliverConsumes(c, s, pk);
      DeliverTellsNoLies(c, s, pk);
      ExtendRun(c, run, pk, Deliver(c, s, pk));
      longer := ExtendToRest(c, run + [Deliver(c, s, pk)]);
      assert longer[..|run|] == longer[..|run| + 1][..|run|] == run;
    }
  }

  lemma RunIsNonempty(c: Config, run: seq<Sys>)
    requires Run(c, run)
    ensures run != []
  {
  }
}
