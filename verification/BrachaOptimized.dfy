/** One process of the optimized Bracha broadcast: the state it keeps per message id and what
    each handler does to it between two suspension points. */
module BrachaOptimized {
  import opened Base
  import opened Ordering
  import opened BrachaRecord

  /** Echo amplification, single-hop SEND, reduced messages. */
  datatype Flags = Flags(amplify: bool, singleHop: bool, reduced: bool)

  datatype Env = Env(me: Node, ids: set<Node>, f: nat, flags: Flags)

  function EchoCommittee(ids: set<Node>, f: nat, sender: Node): set<Node> {
    Committee(ids, sender, EchoQuorum(|ids|, f) + f)
  }

  function ReadyCommittee(ids: set<Node>, f: nat, sender: Node): set<Node> {
    Committee(ids, sender, (2 * f + 1) + f)
  }

  predicate EchoEligible(env: Env, sender: Node) {
    env.me in EchoCommittee(env.ids, env.f, sender)
  }

  predicate ReadyEligible(env: Env, sender: Node) {
    env.me in ReadyCommittee(env.ids, env.f, sender)
  }

  /** Eligibility in numbers: how many ids lie between the sender's and the own one. */
  lemma EligibleExactly(env: Env, sender: Node)
    requires env.me in env.ids
    ensures EchoEligible(env, sender) <==>
              sender in env.ids && 2 * (|Between(env.ids, sender, env.me)| - env.f) < |env.ids| + env.f + 1
    ensures ReadyEligible(env, sender) <==>
              sender in env.ids && |Between(env.ids, sender, env.me)| < 3 * env.f + 1
  {
    hide Committee, Between;
    CommitteeExactly(env.ids, sender, EchoQuorum(|env.ids|, env.f) + env.f);
    CommitteeExactly(env.ids, sender, (2 * env.f + 1) + env.f);
  }

  function OwnEcho(env: Env, rec: Rec): Rec {
    rec.(sentEcho := true, echos := rec.echos + {env.me})
  }

  /** The initiator's own part after its SENDs went out. */
  function StartStep(env: Env): Outcome {
    var rec := FRESH.(seen := true);
    if EchoEligible(env, env.me) then Outcome(OwnEcho(env, rec), Some(Echo), None, false) else Quiet(rec)
  }

  function SendStep(env: Env, rec: Rec, sender: Node): Outcome {
    var seen := rec.(seen := true);
    if rec.seen then Quiet(rec)
    else if env.flags.singleHop then
      if rec.sentEcho then Quiet(seen) else Outcome(OwnEcho(env, seen), Some(Echo), None, false)
    else if !env.flags.reduced || EchoEligible(env, sender) then
      Outcome(OwnEcho(env, seen), Some(Echo), None, false)
    else Quiet(seen)
  }

  function EchoTailStep(env: Env, rec: Rec, sender: Node): Outcome {
    if !rec.sentReady && |rec.echos| >= EchoQuorum(|env.ids|, env.f) && ReadyEligible(env, sender) then
      Outcome(rec.(sentReady := true), Some(Ready), None, false)
    else Quiet(rec)
  }

  function EchoStep(env: Env, rec: Rec, src: Node, sender: Node): Outcome {
    var heard := rec.(echos := rec.echos + {src});
    if env.flags.amplify && !rec.sentEcho && |heard.echos| >= env.f + 1 && EchoEligible(env, sender) then
      Outcome(OwnEcho(env, heard), Some(Echo), Some(EchoTail), false)
    else EchoTailStep(env, heard, sender)
  }

  function ReadyTailStep(env: Env, rec: Rec): Outcome {
    if !rec.delivered && |rec.readys| >= 2 * env.f + 1 then
      Outcome(rec.(delivered := true), None, None, true)
    else Quiet(rec)
  }

  function ReadyStep(env: Env, rec: Rec, src: Node, sender: Node): Outcome {
    var heard := rec.(readys := rec.readys + {src});
    var willSendReady := !rec.sentReady && |heard.readys| >= env.f + 1 && ReadyEligible(env, sender);
    var implied := if env.flags.amplify && !rec.sentEcho then OwnEcho(env, heard) else heard;
    if willSendReady then Outcome(implied.(sentReady := true), Some(Ready), Some(ReadyTail), false)
    else if env.flags.amplify && !rec.sentEcho && EchoEligible(env, sender) then
      Outcome(implied, Some(Echo), Some(ReadyTail), false)
    else ReadyTailStep(env, implied)
  }

  // ----- when each handler broadcasts, in numbers

  /** The first SEND is echoed by the committee, by everybody if messages are not reduced, and in
      single-hop mode by whoever has not echoed; outside single-hop mode also a second time. */
  lemma SendEchoesExactly(env: Env, rec: Rec, sender: Node)
    ensures var o := SendStep(env, rec, sender);
            && (o.cast == Some(Echo) <==>
                  && !rec.seen
                  && if env.flags.singleHop then !rec.sentEcho else !env.flags.reduced || EchoEligible(env, sender))
            && o.cast in {None, Some(Echo)} && o.tail == None && !o.upcall
            && o.rec.seen && (o.rec.sentEcho <==> rec.sentEcho || o.cast.Some?)
  {
    hide EchoEligible;
  }

  /** An ECHO is answered by an ECHO at f+1, and otherwise by READY at half of N+f+1. */
  lemma EchoAnswersExactly(env: Env, rec: Rec, src: Node, sender: Node)
    ensures var o, heard := EchoStep(env, rec, src, sender), |rec.echos + {src}|;
            && (o.cast == Some(Echo) <==>
                  env.flags.amplify && !rec.sentEcho && heard >= env.f + 1 && EchoEligible(env, sender))
            && (o.cast == Some(Ready) <==>
                  && o.cast != Some(Echo) && !rec.sentReady
                  && 2 * heard >= |env.ids| + env.f + 1 && ReadyEligible(env, sender))
            && (o.tail == if o.cast == Some(Echo) then Some(EchoTail) else None) && !o.upcall
  {
    hide EchoEligible, ReadyEligible;
  }

  lemma EchoTailSendsReadyExactly(env: Env, rec: Rec, sender: Node)
    ensures EchoTailStep(env, rec, sender).cast == Some(Ready) <==>
              !rec.sentReady && 2 * |rec.echos| >= |env.ids| + env.f + 1 && ReadyEligible(env, sender)
  {
    hide ReadyEligible;
  }

  /** A READY is answered by READY at f+1 and otherwise, by amplification, by ECHO; in either case the
      ECHO counts as sent. Delivery follows at 2f+1, after the answer if there is one. */
  lemma ReadyAnswersExactly(env: Env, rec: Rec, src: Node, sender: Node)
    ensures var o, heard := ReadyStep(env, rec, src, sender), |rec.readys + {src}|;
            && (o.cast == Some(Ready) <==> !rec.sentReady && heard >= env.f + 1 && ReadyEligible(env, sender))
            && (o.cast == Some(Echo) <==>
                  o.cast != Some(Ready) && env.flags.amplify && !rec.sentEcho && EchoEligible(env, sender))
            && (o.rec.sentEcho <==> rec.sentEcho || env.flags.amplify)
            && (o.tail == if o.cast.Some? then Some(ReadyTail) else None)
            && (o.upcall <==> o.cast == None && !rec.delivered && heard >= 2 * env.f + 1)
    ensures ReadyTailStep(env, rec).upcall <==> !rec.delivered && |rec.readys| >= 2 * env.f + 1
  {
    hide EchoEligible, ReadyEligible;
  }

  /** A process as one message id sees it: every handler touches the dictionaries of the
      process only at the message's id, and these fields are the slots at that id. */
  class BrachaOptimizedSlot {
    const me: Node
    const peers: set<Node>
    const f: nat
    const flags: Flags
    var seen: bool
    var echos: set<Node>
    var readys: set<Node>
    var sentEcho: bool
    var sentReady: bool
    var delivered: bool

    function Here(): Env { Env(me, peers + {me}, f, flags) }

    function View(): Rec reads this { Rec(seen, echos, readys, sentEcho, sentReady, delivered) }

    constructor InitState(me: Node, peers: set<Node>, f: nat, flags: Flags)
      ensures View() == FRESH && Here() == Env(me, peers + {me}, f, flags)
    {
      this.me, this.peers, this.f, this.flags := me, peers, f, flags;
      seen, echos, readys, sentEcho, sentReady, delivered := false, {}, {}, false, false, false;
    }

    /** Walks |count| places round the sorted ring from the sender. */
    method CalculateEligibleNodes(sender: Node, count: nat) returns (eligible: set<Node>)
      ensures eligible == Committee(peers + {me}, sender, count)
      ensures AreNext(peers + {me}, sender, count, eligible)
    {
      hide Sorted, IndexOf, AreNext;
      CommitteeExactly(peers + {me}, sender, count);
      var allIds := Sorted(peers + {me});
      if sender !in allIds {
        return {};
      }
      var senderIdx := IndexOf(allIds, sender);
      eligible := {};
      for i := 1 to count + 1
        invariant eligible == Circular(allIds, senderIdx, i - 1)
      {
        eligible := eligible + {allIds[Wrap(senderIdx + i, |allIds|)]};
      }
    }

    method ShouldGenerateEcho(sender: Node) returns (eligible: bool)
      ensures eligible == EchoEligible(Here(), sender)
      ensures eligible <==>
                sender in peers + {me} && 2 * (|Between(peers + {me}, sender, me)| - f) < |peers + {me}| + f + 1
    {
      hide Committee, Between;
      var nodes := CalculateEligibleNodes(sender, EchoQuorum(|peers + {me}|, f) + f);
      eligible := me in nodes;
    }

    method ShouldGenerateReady(sender: Node) returns (eligible: bool)
      ensures eligible == ReadyEligible(Here(), sender)
      ensures eligible <==> sender in peers + {me} && |Between(peers + {me}, sender, me)| < 3 * f + 1
    {
      hide Committee, Between;
      var nodes := CalculateEligibleNodes(sender, (2 * f + 1) + f);
      eligible := me in nodes;
    }

    /** The initiator's state change for a message id it has just drawn. */
    method OnStart() returns (cast: Option<Kind>)
      requires View() == FRESH
      modifies this
      ensures Outcome(View(), cast, None, false) == StartStep(Here())
    {
      hide EchoEligible, ReadyEligible;
      cast := None;
      seen := true;
      var eligible := ShouldGenerateEcho(me);
      if eligible {
        sentEcho := true;
        echos := echos + {me};
        cast := Some(Echo);
      }
    }

    method OnSend(sender: Node) returns (cast: Option<Kind>)
      modifies this
      ensures Outcome(View(), cast, None, false) == SendStep(Here(), old(View()), sender)
    {
      hide EchoEligible, ReadyEligible;
      cast := None;
      if !seen {
        seen := true;
        var eligible := ShouldGenerateEcho(sender);
        if flags.singleHop {
          if !sentEcho {
            sentEcho := true;
            echos := echos + {me};
            cast := Some(Echo);
          }
        } else if !flags.reduced || eligible {
          sentEcho := true;
          echos := echos + {me};
          cast := Some(Echo);
        }
      }
    }

    method OnEcho(src: Node, sender: Node) returns (cast: Option<Kind>, tail: Option<Kind>)
      modifies this
      ensures Outcome(View(), cast, tail, false) == EchoStep(Here(), old(View()), src, sender)
    {
      hide EchoEligible, ReadyEligible;
      cast, tail := None, None;
      echos := echos + {src};
      var eligible := ShouldGenerateEcho(sender);
      if flags.amplify && !sentEcho && |echos| >= f + 1 && eligible {
        sentEcho := true;
        echos := echos + {me};
        cast, tail := Some(Echo), Some(EchoTail);
      } else {
        cast := OnEchoTail(sender);
      }
    }

    method OnEchoTail(sender: Node) returns (cast: Option<Kind>)
      modifies this
      ensures Outcome(View(), cast, None, false) == EchoTailStep(Here(), old(View()), sender)
    {
      hide EchoEligible, ReadyEligible;
      cast := None;
      var eligible := ShouldGenerateReady(sender);
      if !sentReady && |echos| >= EchoQuorum(|peers + {me}|, f) && eligible {
        sentReady := true;
        cast := Some(Ready);
      }
    }

    method OnReady(src: Node, sender: Node)
      returns (cast: Option<Kind>, tail: Option<Kind>, upcall: bool)
      modifies this
      ensures Outcome(View(), cast, tail, upcall) == ReadyStep(Here(), old(View()), src, sender)
    {
      hide EchoEligible, ReadyEligible;
      cast, tail, upcall := None, None, false;
      readys := readys + {src};
      var readyEligible := ShouldGenerateReady(sender);
      var willSendReady := !sentReady && |readys| >= f + 1 && readyEligible;
      if flags.amplify && !sentEcho {
        sentEcho := true;
        echos := echos + {me};
        var eligible := ShouldGenerateEcho(sender);
        if !willSendReady && eligible {
          cast, tail := Some(Echo), Some(ReadyTail);
        }
      }
      if willSendReady {
        sentReady := true;
        cast, tail := Some(Ready), Some(ReadyTail);
      }
      if tail == None {
        upcall := OnReadyTail();
      }
    }

    method OnReadyTail() returns (upcall: bool)
      modifies this
      ensures Outcome(View(), None, None, upcall) == ReadyTailStep(Here(), old(View()))
    {
      upcall := false;
      if !delivered && |readys| >= 2 * f + 1 {
        delivered := true;
        upcall := true;
      }
    }
  }
}
