/** The multiplexed Rust connection as it is meant: many concurrent sends over one stream, matched
    to their replies by request id, with every reply frame read whole. */
module RequestMux {
  import opened Base
  import opened Framing
  import opened Ordering

  /** What a handler gives the server for one request. */
  datatype Handling = Data(bytes: Bytes) | Nothing | Failed(text: Bytes)

  datatype Reply = Ok(payload: Bytes) | Err(payload: Bytes)

  /** No data is answered like empty data. */
  function Answer(h: Handling): Reply {
    match h
    case Data(bytes) => Ok(bytes)
    case Nothing => Ok([])
    case Failed(text) => Err(text)
  }

  /** The id drawn by the k-th send of a connection: a 64-bit counter that starts at one. */
  function IdOf(k: nat): nat { Wrap(k + 1, Pow256(8)) }

  /** |token| says which send a reply belongs to; no code looks at it. */
  datatype Inbound = Inbound(id: nat, reply: Reply, token: nat)

  /** |drawn|: ids drawn but not yet queued; |queue|: to the connection task; |requests| and
      |replies|: on the two directions of the stream; |answered|: what the server replied to each
      send; |results|: what the sends returned. */
  datatype Sys = Sys(
    issued: nat, drawn: multiset<nat>, queue: seq<nat>, pending: map<nat, nat>,
    requests: seq<nat>, replies: seq<Inbound>,
    answered: map<nat, Reply>, results: map<nat, Reply>)

  const STARTED := Sys(0, multiset{}, [], map[], [], [], map[], map[])

  datatype Event = Issue | Enqueue(k: nat) | Write | Serve(h: Handling) | Receive

  predicate Enabled(s: Sys, e: Event) {
    match e
    case Issue => true
    case Enqueue(k) => k in s.drawn
    case Write => s.queue != []
    case Serve(_) => s.requests != []
    case Receive => s.replies != []
  }

  function Apply(s: Sys, e: Event): Sys
    requires Enabled(s, e)
  {
    match e
    case Issue => s.(issued := s.issued + 1, drawn := s.drawn + multiset{s.issued})
    case Enqueue(k) => s.(drawn := s.drawn - multiset{k}, queue := s.queue + [k])
    case Write =>
      var k := s.queue[0];
      s.(queue := s.queue[1..], pending := s.pending[IdOf(k) := k], requests := s.requests + [k])
    case Serve(h) =>
      var k := s.requests[0];
      s.(requests := s.requests[1..], replies := s.replies + [Inbound(IdOf(k), Answer(h), k)],
         answered := s.answered[k := Answer(h)])
    case Receive =>
      var r := s.replies[0];
      s.(replies := s.replies[1..], pending := s.pending - {r.id},
         results := if r.id in s.pending then s.results[s.pending[r.id] := r.reply] else s.results)
  }

  function Tokens(rs: seq<Inbound>): seq<nat> {
    if rs == [] then [] else [rs[0].token] + Tokens(rs[1..])
  }

  lemma {:induction false} TokensAppend(rs: seq<Inbound>, r: Inbound)
    ensures Tokens(rs + [r]) == Tokens(rs) + [r.token]
  {
    if rs == [] {
    } else {
      TokensAppend(rs[1..], r);
      assert (rs + [r])[1..] == rs[1..] + [r];
    }
  }

  lemma {:induction false} TokenOf(rs: seq<Inbound>, r: Inbound)
    requires r in rs
    ensures r.token in Tokens(rs)
  {
    if r != rs[0] {
      TokenOf(rs[1..], r);
    }
  }

  /** The sends whose request or reply is on the stream. */
  function InFlight(s: Sys): multiset<nat> { multiset(s.requests) + multiset(Tokens(s.replies)) }

  function Everywhere(s: Sys): multiset<nat> {
    s.drawn + multiset(s.queue) + InFlight(s) + multiset(s.results.Keys)
  }

  /** Conservation: every send issued is in exactly one place. */
  ghost predicate Conserved(s: Sys) {
    forall k: nat :: Everywhere(s)[k] == if k < s.issued then 1 else 0
  }

  /** A reply on the stream is the server's own answer, under the id of the send it answers. */
  ghost predicate Truthful(s: Sys) {
    && (forall r :: r in s.replies ==> r.id == IdOf(r.token) && r.token in s.answered && r.reply == s.answered[r.token])
    && (forall k :: k in s.results ==> k in s.answered && s.results[k] == s.answered[k])
    && (forall k :: k in s.answered ==> k in Tokens(s.replies) || k in s.results)
  }

  /** The pending table holds exactly the sends on the stream, each under its own id. */
  ghost predicate Tabled(s: Sys) {
    && (forall k :: k in InFlight(s) ==> IdOf(k) in s.pending && s.pending[IdOf(k)] == k)
    && (forall id :: id in s.pending ==> s.pending[id] in InFlight(s) && IdOf(s.pending[id]) == id)
  }

  ghost predicate Inv(s: Sys) { Conserved(s) && Truthful(s) && Tabled(s) }

  /** Ids do not repeat among the first 2^64 sends. */
  lemma IdsDiffer(j: nat, k: nat)
    requires j < Pow256(8) && k < Pow256(8) && j != k
    ensures IdOf(j) != IdOf(k)
  {
    hide Pow256, Wrap;
  }

  lemma Split<T>(q: seq<T>)
    requires q != []
    ensures multiset(q) == multiset{q[0]} + multiset(q[1..])
  {
    assert q == [q[0]] + q[1..];
  }

  lemma IssueMoves(s: Sys)
    ensures var s' := Apply(s, Issue);
            Everywhere(s') == Everywhere(s) + multiset{s.issued} && InFlight(s') == InFlight(s)
  {
    hide IdOf, Tokens;
  }

  lemma EnqueueMoves(s: Sys, k: nat)
    requires k in s.drawn
    ensures var s' := Apply(s, Enqueue(k)); Everywhere(s') == Everywhere(s) && InFlight(s') == InFlight(s)
  {
    hide IdOf, Tokens;
    var s' := Apply(s, Enqueue(k));
    assert s.drawn == s'.drawn + multiset{k};
    assert multiset(s'.queue) == multiset(s.queue) + multiset{k};
    assert InFlight(s') == InFlight(s);
  }

  lemma WriteMoves(s: Sys)
    requires s.queue != []
    ensures var s' := Apply(s, Write);
            Everywhere(s') == Everywhere(s) && InFlight(s') == InFlight(s) + multiset{s.queue[0]}
  {
    hide IdOf, Tokens;
    Split(s.queue);
  }

  lemma ServeMoves(s: Sys, h: Handling)
    requires s.requests != []
    ensures var s' := Apply(s, Serve(h)); Everywhere(s') == Everywhere(s) && InFlight(s') == InFlight(s)
  {
    hide IdOf, Tokens, Answer;
    Split(s.requests);
    TokensAppend(s.replies, Inbound(IdOf(s.requests[0]), Answer(h), s.requests[0]));
  }

  lemma ReceiveTakes(s: Sys)
    requires s.replies != []
    ensures InFlight(s) == InFlight(Apply(s, Receive)) + multiset{s.replies[0].token}
  {
    hide IdOf;
    Split(Tokens(s.replies));
  }

  /** Where each event moves a send. */
  lemma Moves(s: Sys, e: Event)
    requires Enabled(s, e)
    ensures var s' := Apply(s, e);
            match e
            case Issue => Everywhere(s') == Everywhere(s) + multiset{s.issued} && InFlight(s') == InFlight(s)
            case Enqueue(k) => Everywhere(s') == Everywhere(s) && InFlight(s') == InFlight(s)
            case Write => Everywhere(s') == Everywhere(s) && InFlight(s') == InFlight(s) + multiset{s.queue[0]}
            case Serve(_) => Everywhere(s') == Everywhere(s) && InFlight(s') == InFlight(s)
            case Receive => InFlight(s) == InFlight(s') + multiset{s.replies[0].token}
  {
    hide Apply, Everywhere, InFlight;
    match e
    case Issue => IssueMoves(s);
    case Enqueue(k) => EnqueueMoves(s, k);
    case Write => WriteMoves(s);
    case Serve(h) => ServeMoves(s, h);
    case Receive => ReceiveTakes(s);
  }

  /** The reply at the head finds its own send waiting, and that send has no result yet. */
  lemma HeadReply(s: Sys)
    requires Inv(s) && s.replies != []
    ensures var r := s.replies[0];
            && r.id in s.pending && s.pending[r.id] == r.token && r.token !in s.results
            && r.token in s.answered && r.reply == s.answered[r.token] && r.id == IdOf(r.token)
  {
    hide IdOf;
    var r := s.replies[0];
    assert r in s.replies;
    TokenOf(s.replies, r);
    assert r.token in InFlight(s) && InFlight(s)[r.token] >= 1;
    assert Everywhere(s)[r.token] <= 1;
  }

  lemma ReceiveMoves(s: Sys)
    requires Inv(s) && s.replies != []
    ensures Everywhere(Apply(s, Receive)) == Everywhere(s)
  {
    hide IdOf, Tabled, Truthful, Conserved;
    var r, s' := s.replies[0], Apply(s, Receive);
    HeadReply(s);
    Moves(s, Receive);
    assert s'.results.Keys == s.results.Keys + {r.token};
    assert multiset(s'.results.Keys) == multiset(s.results.Keys) + multiset{r.token};
  }

  lemma ConservedAfter(s: Sys, e: Event)
    requires Inv(s) && Enabled(s, e)
    ensures Conserved(Apply(s, e))
  {
    hide IdOf, Tabled, Truthful, Everywhere;
    Moves(s, e);
    if e.Receive? {
      ReceiveMoves(s);
    }
  }

  lemma TruthfulAfter(s: Sys, e: Event)
    requires Inv(s) && Enabled(s, e)
    ensures Truthful(Apply(s, e))
  {
    hide IdOf, Tabled;
    match e
    case Issue =>
    case Enqueue(_) =>
    case Write =>
    case Serve(h) => ServeIsTruthful(s, h);
    case Receive => ReceiveIsTruthful(s);
  }

  lemma RequestIsUnanswered(s: Sys)
    requires Conserved(s) && s.requests != []
    ensures s.requests[0] !in Tokens(s.replies) && s.requests[0] !in s.results
  {
    hide IdOf, Tokens;
    var k := s.requests[0];
    assert multiset(s.requests)[k] >= 1;
    assert Everywhere(s)[k] <= 1;
  }

  lemma ServeIsTruthful(s: Sys, h: Handling)
    requires Inv(s) && s.requests != []
    ensures Truthful(Apply(s, Serve(h)))
  {
    hide IdOf, Tabled, Answer, Tokens, Everywhere, Conserved;
    var k := s.requests[0];
    TokensAppend(s.replies, Inbound(IdOf(k), Answer(h), k));
    RequestIsUnanswered(s);
    forall r | r in s.replies
      ensures r.token != k
    {
      TokenOf(s.replies, r);
    }
  }

  lemma ReceiveIsTruthful(s: Sys)
    requires Inv(s) && s.replies != []
    ensures Truthful(Apply(s, Receive))
  {
    hide IdOf, Tabled, Conserved, Everywhere;
    HeadReply(s);
  }

  lemma InFlightIsIssued(s: Sys)
    requires Conserved(s)
    ensures forall k :: k in InFlight(s) ==> k < s.issued && k !in s.results
  {
    hide IdOf, InFlight;
    forall k | k in InFlight(s)
      ensures k < s.issued && k !in s.results
    {
      assert Everywhere(s)[k] >= 1;
      assert Everywhere(s)[k] >= InFlight(s)[k] + multiset(s.results.Keys)[k];
    }
  }

  lemma QueuedIsIssued(s: Sys)
    requires Conserved(s) && s.queue != []
    ensures s.queue[0] < s.issued && s.queue[0] !in InFlight(s)
  {
    hide IdOf, InFlight;
    var k := s.queue[0];
    Split(s.queue);
    assert multiset(s.queue)[k] >= 1;
    assert Everywhere(s)[k] >= 1;
  }

  lemma WriteIsTabled(s: Sys)
    requires Inv(s) && s.queue != [] && s.issued <= Pow256(8)
    ensures Tabled(Apply(s, Write))
  {
    hide IdOf, Truthful, InFlight, Everywhere, Pow256, Conserved;
    var k := s.queue[0];
    WriteMoves(s);
    InFlightIsIssued(s);
    QueuedIsIssued(s);
    forall j | j in InFlight(s)
      ensures IdOf(j) != IdOf(k)
    {
      IdsDiffer(j, k);
    }
  }

  lemma ReceiveIsTabled(s: Sys)
    requires Inv(s) && s.replies != [] && s.issued <= Pow256(8)
    ensures Tabled(Apply(s, Receive))
  {
    hide IdOf, Truthful, InFlight, Everywhere, Pow256, Conserved;
    var s' := Apply(s, Receive);
    HeadReply(s);
    var k := s.replies[0].token;
    assert k in s'.results;
    ReceiveTakes(s);
    InFlightIsIssued(s);
    ConservedAfter(s, Receive);
    InFlightIsIssued(s');
    forall j | j in InFlight(s')
      ensures IdOf(j) != IdOf(k)
    {
      IdsDiffer(j, k);
    }
  }

  lemma TabledAfter(s: Sys, e: Event)
    requires Inv(s) && Enabled(s, e) && s.issued <= Pow256(8)
    ensures Tabled(Apply(s, e))
  {
    hide IdOf, Truthful, InFlight, Everywhere, Pow256, Conserved;
    match e
    case Issue => IssueMoves(s);
    case Enqueue(k) => EnqueueMoves(s, k);
    case Write => WriteIsTabled(s);
    case Serve(h) => ServeMoves(s, h);
    case Receive => ReceiveIsTabled(s);
  }

  lemma InvAfter(s: Sys, e: Event)
    requires Inv(s) && Enabled(s, e) && s.issued <= Pow256(8)
    ensures Inv(Apply(s, e))
  {
    hide Tabled, Truthful, Conserved, Apply, Pow256;
    ConservedAfter(s, e);
    TruthfulAfter(s, e);
    TabledAfter(s, e);
  }

  lemma StartedInv()
    ensures Inv(STARTED)
  {
  }

  /** A result is the server's answer to that same send, which is then nowhere else. */
  lemma ResultFacts(s: Sys, k: nat)
    requires Inv(s) && k in s.results
    ensures k in s.answered && s.results[k] == s.answered[k] && k < s.issued
    ensures k !in s.drawn && k !in s.queue && k !in s.requests && k !in Tokens(s.replies)
  {
    hide Tabled, InFlight;
    assert multiset(s.results.Keys)[k] == 1;
    assert Everywhere(s)[k] == 1;
    InFlightIsIssued(s);
    assert s.drawn[k] == 0 && multiset(s.queue)[k] == 0;
    assert k !in InFlight(s);
    NotOnStream(s, k);
  }

  lemma NotOnStream(s: Sys, k: nat)
    ensures k in InFlight(s) <==> k in s.requests || k in Tokens(s.replies)
  {
  }

  lemma ResultKept(s: Sys, e: Event, k: nat)
    requires Inv(s) && Enabled(s, e) && k in s.results
    ensures k in Apply(s, e).results && Apply(s, e).results[k] == s.results[k]
  {
    hide IdOf, Tabled, Truthful, Conserved;
    if e.Receive? {
      HeadReply(s);
    }
  }

  /** With nothing on its way every send issued has its result. */
  lemma RestFacts(s: Sys)
    requires Inv(s) && s.drawn == multiset{} && s.queue == [] && s.requests == [] && s.replies == []
    ensures s.pending == map[] && (forall k: nat :: k in s.results <==> k < s.issued) && s.results == s.answered
  {
    hide IdOf;
    assert InFlight(s) == multiset{};
    forall k: nat
      ensures k in s.results <==> k < s.issued
    {
      assert Everywhere(s)[k] == multiset(s.results.Keys)[k];
    }
  }

  lemma IdsRepeat(k: nat)
    ensures IdOf(k + Pow256(8)) == IdOf(k)
  {
  }
}
