/** One process of the plain Bracha broadcast, with and without counting its own ECHO. */
module Bracha {
  import opened Base
  import opened BrachaRecord

  /** |countOwn|: the process adds its own ECHO to its tally (bracha.py) or does not
      (bracha_basic.py). It never counts its own READY. */
  datatype Env = Env(me: Node, n: nat, f: nat, countOwn: bool)

  function OwnEcho(env: Env, rec: Rec): Rec {
    rec.(sentEcho := true, echos := rec.echos + if env.countOwn then {env.me} else {})
  }

  /** The initiator after its SENDs went out. */
  function StartStep(env: Env): Outcome {
    Outcome(OwnEcho(env, FRESH.(seen := true)), Some(Echo), None, false)
  }

  function SendStep(env: Env, rec: Rec): Outcome {
    if rec.seen then Quiet(rec) else Outcome(OwnEcho(env, rec.(seen := true)), Some(Echo), None, false)
  }

  function EchoStep(env: Env, rec: Rec, src: Node): Outcome {
    var heard := rec.(echos := rec.echos + {src});
    if !rec.sentReady && |heard.echos| >= EchoQuorum(env.n, env.f) then
      Outcome(heard.(sentReady := true), Some(Ready), None, false)
    else Quiet(heard)
  }

  function ReadyTailStep(env: Env, rec: Rec): Outcome {
    if !rec.delivered && |rec.readys| >= 2 * env.f + 1 then
      Outcome(rec.(delivered := true), None, None, true)
    else Quiet(rec)
  }

  function ReadyStep(env: Env, rec: Rec, src: Node): Outcome {
    var heard := rec.(readys := rec.readys + {src});
    if !rec.sentReady && |heard.readys| >= env.f + 1 then
      Outcome(heard.(sentReady := true), Some(Ready), Some(ReadyTail), false)
    else ReadyTailStep(env, heard)
  }

  // ----- when each handler broadcasts, in numbers

  /** The first SEND is echoed and no other; an ECHO is answered by READY at half of N+f+1. */
  lemma EchoAnswersExactly(env: Env, rec: Rec, src: Node)
    ensures SendStep(env, rec).cast == if rec.seen then None else Some(Echo)
    ensures EchoStep(env, rec, src).cast ==
              if !rec.sentReady && 2 * |rec.echos + {src}| >= env.n + env.f + 1 then Some(Ready) else None
  {
  }

  /** A READY is answered by READY at f+1; delivery follows at 2f+1, after the answer if any. */
  lemma ReadyAnswersExactly(env: Env, rec: Rec, src: Node)
    ensures var o, heard := ReadyStep(env, rec, src), |rec.readys + {src}|;
            && o.cast == (if !rec.sentReady && heard >= env.f + 1 then Some(Ready) else None)
            && o.tail == (if o.cast.Some? then Some(ReadyTail) else None)
            && (o.upcall <==> o.cast == None && !rec.delivered && heard >= 2 * env.f + 1)
    ensures ReadyTailStep(env, rec).upcall <==> !rec.delivered && |rec.readys| >= 2 * env.f + 1
  {
  }

  /** A process as one message id sees it. */
  class BrachaSlot {
    const me: Node
    const n: nat
    const f: nat
    const countOwn: bool
    var seen: bool
    var echos: set<Node>
    var readys: set<Node>
    var sentEcho: bool
    var sentReady: bool
    var delivered: bool

    function Here(): Env { Env(me, n, f, countOwn) }

    function View(): Rec reads this { Rec(seen, echos, readys, sentEcho, sentReady, delivered) }

    constructor InitState(me: Node, n: nat, f: nat, countOwn: bool)
      ensures View() == FRESH && Here() == Env(me, n, f, countOwn)
    {
      this.me, this.n, this.f, this.countOwn := me, n, f, countOwn;
      seen, echos, readys, sentEcho, sentReady, delivered := false, {}, {}, false, false, false;
    }

    /** Marks the ECHO sent, for the initiator as for a receiver of SEND. */
    method MarkEcho()
      modifies this
      ensures View() == OwnEcho(Here(), old(View()).(seen := true))
    {
      seen := true;
      sentEcho := true;
      if countOwn {
        echos := echos + {me};
      }
    }

    method OnStart() returns (cast: Option<Kind>)
      requires View() == FRESH
      modifies this
      ensures Outcome(View(), cast, None, false) == StartStep(Here())
    {
      MarkEcho();
      cast := Some(Echo);
    }

    method OnSend() returns (cast: Option<Kind>)
      modifies this
      ensures Outcome(View(), cast, None, false) == SendStep(Here(), old(View()))
    {
      cast := None;
      if !seen {
        MarkEcho();
        cast := Some(Echo);
      }
    }

    method OnEcho(src: Node) returns (cast: Option<Kind>)
      modifies this
      ensures Outcome(View(), cast, None, false) == EchoStep(Here(), old(View()), src)
    {
      cast := None;
      echos := echos + {src};
      if !sentReady && |echos| >= EchoQuorum(n, f) {
        sentReady := true;
        cast := Some(Ready);
      }
    }

    method OnReady(src: Node) returns (cast: Option<Kind>, tail: Option<Kind>, upcall: bool)
      modifies this
      ensures Outcome(View(), cast, tail, upcall) == ReadyStep(Here(), old(View()), src)
    {
      cast, tail, upcall := None, None, false;
      readys := readys + {src};
      if !sentReady && |readys| >= f + 1 {
        sentReady := true;
        cast, tail := Some(Ready), Some(ReadyTail);
      } else {
        upcall := OnReadyTail();
      }
    }

    method OnReadyTail() returns (upcall: bool)
      modifies this
      ensures Outcome(View(), None, None, upcall) == ReadyTailStep(Here(), old(View()))
    {
      upcall := false;
      if !delivered && |readys| >= 2 * f + 1 {
        delivered := true;
        upcall := true;
      }
    }
  }
}
