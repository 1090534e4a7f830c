/** What every optimized Bracha broadcast says about why a process has echoed, sent READY and
    delivered, in every state of every run, and how often it echoes. */
module BrachaOptimizedGrounds {
  import opened Base
  import opened BrachaRecord
  import opened BrachaOptimized
  import opened BrachaOptimizedRun
  import opened BrachaOptimizedTermination

  /** The grounds on which a process may have acted, in numbers. */
  predicate Grounds(env: Env, sender: Node, rec: Rec, echoed: bool, echoes: nat) {
    && (rec.sentReady ==>
          ReadyEligible(env, sender) && (|rec.readys| >= env.f + 1 || 2 * |rec.echos| >= |env.ids| + env.f + 1))
    && (rec.delivered ==> |rec.readys| >= 2 * env.f + 1)
    && (echoed ==> EchoGround(env, sender, rec))
    && (rec.sentEcho ==> echoed || (env.flags.amplify && rec.readys != {}))
    && echoes <= (if rec.seen then 1 else 0) + (if rec.sentEcho then 1 else 0)
    && (env.flags.singleHop ==> echoes <= if rec.sentEcho then 1 else 0)
  }

  /** Initiating, a SEND, or amplification. */
  predicate EchoGround(env: Env, sender: Node, rec: Rec) {
    var eligible := EchoEligible(env, sender);
    || (env.me == sender && eligible)
    || (rec.seen && env.me != sender && (env.flags.singleHop || !env.flags.reduced || eligible))
    || (env.flags.amplify && eligible && (|rec.echos| >= env.f + 1 || rec.readys != {}))
  }

  lemma Grown(a: set<Node>, b: set<Node>)
    ensures |a + b| >= |a|
  {
    SubsetSize(a, a + b);
  }

  lemma GroundsAfterSend(env: Env, sender: Node, rec: Rec, echoed: bool, echoes: nat)
    requires Grounds(env, sender, rec, echoed, echoes) && (env.me == sender ==> rec.seen)
    ensures var o := SendStep(env, rec, sender);
            Grounds(env, sender, o.rec, echoed || o.cast == Some(Echo), echoes + if o.cast == Some(Echo) then 1 else 0)
  {
    hide EchoEligible, ReadyEligible;
    Grown(rec.echos, {env.me});
  }

  lemma GroundsAfterEcho(env: Env, sender: Node, rec: Rec, src: Node, echoed: bool, echoes: nat)
    requires Grounds(env, sender, rec, echoed, echoes)
    ensures var o := EchoStep(env, rec, src, sender);
            Grounds(env, sender, o.rec, echoed || o.cast == Some(Echo), echoes + if o.cast == Some(Echo) then 1 else 0)
  {
    hide EchoEligible, ReadyEligible;
    Grown(rec.echos, {src});
    Grown(rec.echos + {src}, {env.me});
  }

  lemma GroundsAfterReady(env: Env, sender: Node, rec: Rec, src: Node, echoed: bool, echoes: nat)
    requires Grounds(env, sender, rec, echoed, echoes)
    ensures var o := ReadyStep(env, rec, src, sender);
            Grounds(env, sender, o.rec, echoed || o.cast == Some(Echo), echoes + if o.cast == Some(Echo) then 1 else 0)
  {
    hide EchoEligible, ReadyEligible;
    Grown(rec.readys, {src});
    Grown(rec.echos, {env.me});
  }

  lemma GroundsAfterTails(env: Env, sender: Node, rec: Rec, echoed: bool, echoes: nat)
    requires Grounds(env, sender, rec, echoed, echoes)
    ensures Grounds(env, sender, EchoTailStep(env, rec, sender).rec, echoed, echoes)
    ensures Grounds(env, sender, ReadyTailStep(env, rec).rec, echoed, echoes)
    ensures EchoTailStep(env, rec, sender).cast != Some(Echo) && ReadyTailStep(env, rec).cast != Some(Echo)
  {
    hide EchoEligible, ReadyEligible;
  }

  ghost predicate GroundsAt(c: Config, s: Sys, p: Node) {
    Grounds(EnvOf(c, p), c.sender, RecOf(s, p), Made(s, p, Echo), s.casts[Cast(p, Echo)])
  }

  ghost predicate Grounded(c: Config, s: Sys) { forall p :: p in c.nodes ==> GroundsAt(c, s, p) }

  lemma SenderHasSeen(c: Config, s: Sys, p: Node)
    requires Inv(c, s) && p in c.nodes
    ensures p == c.sender ==> RecOf(s, p).seen
  {
    hide RecOf, OutOf, Made, Wire, Tally, Flood, Once, ReadySide, EchoEligible, ReadyEligible;
    assert LocalAt(c, s, p);
  }

  lemma GroundedAfter(c: Config, s: Sys, pk: Packet)
    requires Legal(c) && Inv(c, s) && Grounded(c, s) && pk in s.bag
    ensures Grounded(c, Deliver(c, s, pk))
  {
    hide RecOf, OutOf, Made, Inv, After, Grounds, SendStep, EchoStep, ReadyStep, EchoTailStep, ReadyTailStep;
    var env, rec, s' := EnvOf(c, pk.dst), RecOf(s, pk.dst), Deliver(c, s, pk);
    var e, n := Made(s, pk.dst, Echo), s.casts[Cast(pk.dst, Echo)];
    DstIsNode(c, s, pk);
    SendersAgree(c, s, pk);
    SenderHasSeen(c, s, pk.dst);
    AfterFacts(c, s, pk, Handled(c, rec, pk), s');
    assert GroundsAt(c, s, pk.dst);
    GroundsAfterSend(env, c.sender, rec, e, n);
    GroundsAfterEcho(env, c.sender, rec, pk.src, e, n);
    GroundsAfterReady(env, c.sender, rec, pk.src, e, n);
    GroundsAfterTails(env, c.sender, rec, e, n);
    assert GroundsAt(c, s', pk.dst);
  }

  lemma SendersAgree(c: Config, s: Sys, pk: Packet)
    requires Inv(c, s) && pk in s.bag
    ensures pk.sender == c.sender
  {
    hide Tally, Flood, Once, Locals, Made;
    assert Genuine(c, s, pk);
  }

  lemma GroundedAfterLose(c: Config, s: Sys, pk: Packet)
    requires Grounded(c, s) && pk in s.bag
    ensures Grounded(c, Lose(s, pk))
  {
    hide RecOf, OutOf, Made, Lose, Grounds;
    LoseFacts(s, pk);
    forall p | p in c.nodes
      ensures GroundsAt(c, Lose(s, pk), p)
    {
      assert GroundsAt(c, s, p);
    }
  }

  lemma GroundedStarted(c: Config)
    requires Legal(c)
    ensures Grounded(c, Started(c))
  {
    hide Started, RecOf, OutOf, EchoEligible, ReadyEligible;
    StartedFacts(c);
  }

  /** In every state of every run: READY was sent only at f+1 READYs or a quorum of ECHOs, delivery
      happened only at 2f+1 READYs, an ECHO was broadcast only on initiating, on a SEND or by an
      amplification rule that is switched on, at most twice, and once in single-hop mode. */
  lemma {:induction false} RunIsGrounded(c: Config, run: seq<Sys>)
    requires Legal(c) && Run(c, run)
    ensures Grounded(c, run[|run| - 1])
  {
    hide Inv, Deliver, Lose, Started, Grounded;
    var n := |run| - 1;
    if n == 0 {
      GroundedStarted(c);
    } else {
      assert Run(c, run[..n]);
      RunIsGrounded(c, run[..n]);
      RunKeepsInv(c, run[..n]);
      assert Step(c, run[n - 1], run[n]);
      var pk: Packet :| StepOf(c, run[n - 1], pk, run[n]);
      if run[n] == Deliver(c, run[n - 1], pk) {
        GroundedAfter(c, run[n - 1], pk);
      } else {
        GroundedAfterLose(c, run[n - 1], pk);
      }
    }
  }
}
