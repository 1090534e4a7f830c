/** What every version of the Bracha broadcast keeps per message id, and the shape of a handler
    run. */
module BrachaRecord {
  import opened Base

  /** The entries one process holds for one message id. */
  datatype Rec = Rec(
    seen: bool, echos: set<Node>, readys: set<Node>,
    sentEcho: bool, sentReady: bool, delivered: bool)

  const FRESH := Rec(false, {}, {}, false, false, false)

  /** |EchoTail| and |ReadyTail| are the parts of the two handlers that run after an awaited
      broadcast; a suspended handler is a message to oneself. */
  datatype Kind = Send | Echo | Ready | EchoTail | ReadyTail

  predicate IsTail(kind: Kind) { kind == EchoTail || kind == ReadyTail }

  /** A broadcast made by a node. */
  datatype Cast = Cast(node: Node, kind: Kind)

  /** What running a handler up to its next suspension point amounts to. */
  datatype Outcome = Outcome(rec: Rec, cast: Option<Kind>, tail: Option<Kind>, upcall: bool)

  function Quiet(rec: Rec): Outcome { Outcome(rec, None, None, false) }

  /** The smallest number of ECHOs that makes a process send READY: half of n+f+1, rounded up. */
  function EchoQuorum(n: nat, f: nat): (q: nat)
    ensures n + f + 1 <= 2 * q < n + f + 3
  {
    (n + f + 2) / 2
  }

  /** The effect of a handler on tallies and flags, in the terms protocol invariants need. */
  predicate Handles(kind: Kind, src: Node, me: Node, rec: Rec, o: Outcome) {
    && (o.cast.Some? ==> o.cast.value == Echo || o.cast.value == Ready)
    && (o.tail.Some? ==> IsTail(o.tail.value))
    && (o.rec.sentReady <==> rec.sentReady || o.cast == Some(Ready))
    && (o.cast == Some(Ready) ==> !rec.sentReady)
    && (o.rec.delivered <==> rec.delivered || o.upcall) && (o.upcall ==> !rec.delivered)
    && rec.echos <= o.rec.echos && rec.readys <= o.rec.readys && (rec.seen ==> o.rec.seen)
    && o.rec.echos <= rec.echos + {me} + (if kind == Echo then {src} else {})
    && o.rec.readys <= rec.readys + (if kind == Ready then {src} else {})
    && (kind == Echo ==> src in o.rec.echos) && (kind == Ready ==> src in o.rec.readys)
    && (kind == Send ==> o.rec.seen)
  }

  /** Adding names to a tally never shrinks it, and leaves the rest of it alone. */
  lemma AddOther(s: set<Node>, src: Node, me: Node)
    ensures |s + {src}| >= |s|
    ensures |(s + {src}) - {me}| <= |s + {src}|
    ensures (s + {src} + {me}) - {me} == (s + {src}) - {me}
    ensures (s + {me}) - {me} == s - {me}
  {
    SubsetSize(s, s + {src});
    SubsetSize((s + {src}) - {me}, s + {src});
  }
}
