/** One plain Bracha broadcast among correct and Byzantine processes: runs and what they keep. */
module BrachaByzantine {
  import opened Base
  import opened BrachaRecord
  import opened Bracha

  /** The faulty processes are those outside |correct|; |liars| are the faulty ones that send
      anything at all. |origin| is the initiator when it is correct; a message id invented by a
      Byzantine process has none. */
  datatype Config = Config(
    nodes: set<Node>, correct: set<Node>, liars: set<Node>, f: nat, countOwn: bool,
    origin: Option<Node>, body: string)

  predicate Legal(c: Config) {
    && c.correct <= c.nodes
    && c.liars <= c.nodes - c.correct
    && |c.nodes - c.correct| <= c.f
    && (c.origin.Some? ==> c.origin.value in c.correct)
  }

  datatype Packet = Packet(kind: Kind, src: Node, dst: Node, body: string)

  /** |said| is the body of the latest broadcast of each kind by each correct process, |casts|
      how often it made it, |log| everything anybody ever sent, |out| the upcalls. */
  datatype Sys = Sys(
    recs: map<Node, Rec>, bag: multiset<Packet>, said: map<Cast, string>,
    casts: multiset<Cast>, log: set<Packet>, out: map<Node, seq<string>>)

  function RecOf(s: Sys, p: Node): Rec { if p in s.recs then s.recs[p] else FRESH }

  function OutOf(s: Sys, p: Node): seq<string> { if p in s.out then s.out[p] else [] }

  function EnvOf(c: Config, p: Node): Env { Env(p, |c.nodes|, c.f, c.countOwn) }

  function Copies(kind: Kind, src: Node, targets: set<Node>, body: string): set<Packet> {
    set q | q in targets && q != src :: Packet(kind, src, q, body)
  }

  function Emitted(c: Config, p: Node, o: Outcome, body: string): set<Packet> {
    (if o.cast.Some? then Copies(o.cast.value, p, c.correct, body) else {}) +
    (if o.tail.Some? then {Packet(o.tail.value, p, p, body)} else {})
  }

  function Logged(c: Config, p: Node, o: Outcome, body: string): set<Packet> {
    if o.cast.Some? then Copies(o.cast.value, p, c.nodes, body) else {}
  }

  function Exec(c: Config, s: Sys, p: Node, o: Outcome, body: string): Sys {
    Sys(s.recs[p := o.rec],
        s.bag + multiset(Emitted(c, p, o, body)),
        if o.cast.Some? then s.said[Cast(p, o.cast.value) := body] else s.said,
        if o.cast.Some? then s.casts + multiset{Cast(p, o.cast.value)} else s.casts,
        s.log + Logged(c, p, o, body),
        if o.upcall then s.out[p := OutOf(s, p) + [body]] else s.out)
  }

  /** A correct initiator has run its start hook; without one nothing has happened yet. */
  function Started(c: Config): Sys {
    var empty := Sys(map[], multiset{}, map[], multiset{}, {}, map[]);
    match c.origin
    case None => empty
    case Some(o) =>
      Exec(c,
           empty.(bag := multiset(Copies(Send, o, c.correct, c.body)), log := Copies(Send, o, c.nodes, c.body)),
           o, StartStep(EnvOf(c, o)), c.body)
  }

  function Handled(c: Config, rec: Rec, pk: Packet): Outcome {
    match pk.kind
    case Send => SendStep(EnvOf(c, pk.dst), rec)
    case Echo => EchoStep(EnvOf(c, pk.dst), rec, pk.src)
    case Ready => ReadyStep(EnvOf(c, pk.dst), rec, pk.src)
    case ReadyTail => ReadyTailStep(EnvOf(c, pk.dst), rec)
    case EchoTail => Quiet(rec)
  }

  function After(c: Config, s: Sys, pk: Packet, o: Outcome): Sys {
    Exec(c, s.(bag := s.bag - multiset{pk}), pk.dst, o, pk.body)
  }

  function Deliver(c: Config, s: Sys, pk: Packet): Sys {
    After(c, s, pk, Handled(c, RecOf(s, pk.dst), pk))
  }

  /** A Byzantine process sends any message it likes, under its own name only. */
  predicate MayInject(c: Config, pk: Packet) {
    pk.src in c.liars && pk.dst in c.correct && !IsTail(pk.kind)
  }

  function Inject(s: Sys, pk: Packet): Sys {
    s.(bag := s.bag + multiset{pk}, log := s.log + {pk})
  }

  ghost predicate StepOf(c: Config, s: Sys, pk: Packet, s': Sys) {
    (pk in s.bag && s' == Deliver(c, s, pk)) || (MayInject(c, pk) && s' == Inject(s, pk))
  }

  ghost predicate Step(c: Config, s: Sys, s': Sys) {
    exists pk: Packet :: StepOf(c, s, pk, s')
  }

  ghost predicate Run(c: Config, run: seq<Sys>) {
    && run != [] && run[0] == Started(c)
    && forall i :: 0 <= i < |run| - 1 ==> Step(c, run[i], run[i + 1])
  }

  /** Nothing sent to a correct process is undelivered. */
  ghost predicate Quiescent(s: Sys) {
    forall pk :: pk !in s.bag
  }

  // ----- what every run keeps

  function Faulty(c: Config): set<Node> { c.nodes - c.correct }

  predicate Said(s: Sys, p: Node, kind: Kind) { Cast(p, kind) in s.said }

  function Words(s: Sys, p: Node, kind: Kind): string
    requires Said(s, p, kind)
  {
    s.said[Cast(p, kind)]
  }

  function Echoers(c: Config, s: Sys): set<Node> {
    set p | p in c.correct && RecOf(s, p).sentEcho
  }

  /** Links are authenticated: a message under a correct name was sent by that process. */
  predicate Genuine(c: Config, s: Sys, pk: Packet) {
    && pk.src in c.correct + c.liars
    && (pk.src in c.correct && (pk.kind == Echo || pk.kind == Ready) ==>
          Said(s, pk.src, pk.kind) && Words(s, pk.src, pk.kind) == pk.body)
    && (pk.src in c.correct && pk.kind == Send ==> c.origin == Some(pk.src))
  }

  ghost predicate Wire(c: Config, s: Sys) {
    forall pk :: pk in s.bag ==>
      && Genuine(c, s, pk) && pk.dst in c.correct
      && (IsTail(pk.kind) <==> pk.src == pk.dst) && pk.kind != EchoTail
      && (!IsTail(pk.kind) ==> pk in s.log)
  }

  ghost predicate Log(c: Config, s: Sys) {
    forall pk :: pk in s.log ==> Genuine(c, s, pk) && !IsTail(pk.kind)
  }

  predicate TallyAt(c: Config, s: Sys, p: Node) {
    && (forall q :: q in RecOf(s, p).echos && q != p ==>
          q in c.correct + c.liars && (q in c.correct ==> Said(s, q, Echo)))
    && (forall q :: q in RecOf(s, p).readys ==>
          q in c.correct + c.liars && q != p && (q in c.correct ==> Said(s, q, Ready)))
  }

  ghost predicate Tally(c: Config, s: Sys) {
    forall p :: p in c.correct ==> TallyAt(c, s, p)
  }

  predicate Reached(c: Config, s: Sys, p: Node, q: Node) {
    && (Said(s, p, Echo) ==> Packet(Echo, p, q, Words(s, p, Echo)) in s.bag || p in RecOf(s, q).echos)
    && (Said(s, p, Ready) ==> Packet(Ready, p, q, Words(s, p, Ready)) in s.bag || p in RecOf(s, q).readys)
    && (c.origin == Some(p) ==> Packet(Send, p, q, c.body) in s.bag || RecOf(s, q).seen)
  }

  /** Reliable links between correct processes. */
  ghost predicate Flood(c: Config, s: Sys) {
    forall p, q :: p in c.correct && q in c.correct && p != q ==> Reached(c, s, p, q)
  }

  predicate Local(env: Env, rec: Rec, readyTail: bool) {
    && (|rec.readys| >= env.f + 1 ==> rec.sentReady)
    && (|rec.readys| >= 2 * env.f + 1 ==> rec.delivered || readyTail)
    && (2 * |rec.echos - {env.me}| >= env.n + env.f + 1 ==> rec.sentReady)
    && (rec.delivered ==> |rec.readys| >= 2 * env.f + 1)
    && (rec.seen <==> rec.sentEcho)
    && (env.me in rec.echos <==> rec.sentEcho && env.countOwn)
  }

  ghost predicate TailPending(s: Sys, p: Node) { exists b: string :: Packet(ReadyTail, p, p, b) in s.bag }

  ghost predicate LocalAt(c: Config, s: Sys, p: Node) {
    && Local(EnvOf(c, p), RecOf(s, p), TailPending(s, p))
    && (c.origin == Some(p) ==> RecOf(s, p).seen)
    && (RecOf(s, p).sentEcho <==> Said(s, p, Echo))
    && (RecOf(s, p).sentReady <==> Said(s, p, Ready))
    && s.casts[Cast(p, Echo)] == (if RecOf(s, p).sentEcho then 1 else 0)
    && s.casts[Cast(p, Ready)] == (if RecOf(s, p).sentReady then 1 else 0)
    && |OutOf(s, p)| == (if RecOf(s, p).delivered then 1 else 0)
  }

  ghost predicate Locals(c: Config, s: Sys) {
    forall p :: p in c.correct ==> LocalAt(c, s, p)
  }

  /** A SEND reached |p|, or |p| initiated. */
  ghost predicate Prompted(c: Config, s: Sys, p: Node) {
    c.origin == Some(p) || exists pk :: pk in s.log && pk.kind == Send && pk.dst == p
  }

  /** Some correct process has an ECHO quorum on record. */
  predicate QuorumSeen(c: Config, s: Sys) {
    exists r :: r in c.correct && 2 * |RecOf(s, r).echos| >= |c.nodes| + c.f + 1
  }

  /** Why a correct process echoed and why it sent READY. */
  ghost predicate Causes(c: Config, s: Sys) {
    && (forall p :: p in c.correct && RecOf(s, p).seen ==> Prompted(c, s, p))
    && (forall p :: p in c.correct && RecOf(s, p).sentReady ==> QuorumSeen(c, s))
  }

  /** An ECHO quorum is on record but nothing re-tested the threshold. Only the own ECHO,
      counted while handling SEND, can leave a process in this position. */
  predicate Stalled(c: Config, s: Sys, p: Node) {
    !RecOf(s, p).sentReady && 2 * |RecOf(s, p).echos| >= |c.nodes| + c.f + 1
  }

  predicate Crossed(c: Config, s: Sys, p: Node, q: Node) {
    Stalled(c, s, p) && Stalled(c, s, q) && p in RecOf(s, q).echos && q in RecOf(s, p).echos
  }

  /** Two stalled correct processes cannot have heard each other: the later of the two SENDs
      came after the other ECHO had arrived, so that ECHO's receiver tested the full tally. */
  ghost predicate NoMutualStall(c: Config, s: Sys) {
    forall p, q :: p in c.correct && q in c.correct && p != q ==> !Crossed(c, s, p, q)
  }

  ghost predicate Inv(c: Config, s: Sys) {
    Wire(c, s) && Log(c, s) && Tally(c, s) && Flood(c, s) && Locals(c, s) && Causes(c, s) && NoMutualStall(c, s)
  }

  // ----- one handler run

  /** How each handler treats the own ECHO and READY, beyond |Handles|. */
  predicate EchoesOnce(c: Config, pk: Packet, rec: Rec, o: Outcome) {
    && (o.rec.sentEcho <==> rec.sentEcho || o.cast == Some(Echo))
    && (o.cast == Some(Echo) ==> pk.kind == Send && !rec.seen)
    && (o.cast == Some(Ready) ==> !rec.sentReady)
    && o.cast in {None, Some(Echo), Some(Ready)} && o.tail in {None, Some(ReadyTail)}
    && (o.rec.seen ==> rec.seen || pk.kind == Send)
    && (o.cast == Some(Ready) && pk.kind == Echo ==> 2 * |o.rec.echos| >= |c.nodes| + c.f + 1)
    && (o.cast == Some(Ready) && pk.kind != Echo ==> |o.rec.readys| >= c.f + 1)
    && (pk.kind == Echo && 2 * |o.rec.echos| >= |c.nodes| + c.f + 1 ==> o.rec.sentReady)
    && (pk.kind != Echo && (pk.kind == Send ==> rec.seen) ==> o.rec.echos == rec.echos)
  }

  lemma HandledHandles(c: Config, rec: Rec, pk: Packet)
    requires pk.kind != EchoTail
    ensures Handles(pk.kind, pk.src, pk.dst, rec, Handled(c, rec, pk))
  {
    hide Handles, SendStep, EchoStep, ReadyStep, ReadyTailStep;
    var env := EnvOf(c, pk.dst);
    HandlesSend(env, rec, pk.src);
    HandlesEcho(env, rec, pk.src);
    HandlesReady(env, rec, pk.src);
  }

  lemma HandlesSend(env: Env, rec: Rec, src: Node)
    ensures Handles(Send, src, env.me, rec, SendStep(env, rec))
  {
  }

  lemma HandlesEcho(env: Env, rec: Rec, src: Node)
    ensures Handles(Echo, src, env.me, rec, EchoStep(env, rec, src))
  {
    hide EchoQuorum;
  }

  lemma HandlesReady(env: Env, rec: Rec, src: Node)
    ensures Handles(Ready, src, env.me, rec, ReadyStep(env, rec, src))
    ensures Handles(ReadyTail, src, env.me, rec, ReadyTailStep(env, rec))
  {
  }

  lemma HandledEchoesOnce(c: Config, rec: Rec, pk: Packet)
    requires rec.seen <==> rec.sentEcho
    requires pk.kind != EchoTail
    ensures EchoesOnce(c, pk, rec, Handled(c, rec, pk))
  {
    hide EchoQuorum;
  }

  lemma LocalAfterSend(env: Env, rec: Rec, tail: bool)
    requires Local(env, rec, tail)
    ensures Local(env, SendStep(env, rec).rec, tail)
    ensures Local(env, ReadyTailStep(env, rec).rec, false)
  {
    AddOther(rec.echos, env.me, env.me);
  }

  lemma LocalAfterEcho(env: Env, rec: Rec, src: Node, tail: bool)
    requires Local(env, rec, tail) && src != env.me
    ensures Local(env, EchoStep(env, rec, src).rec, tail)
  {
    AddOther(rec.echos, src, env.me);
  }

  lemma LocalAfterReady(env: Env, rec: Rec, src: Node, tail: bool)
    requires Local(env, rec, tail)
    ensures var o := ReadyStep(env, rec, src); Local(env, o.rec, tail || o.tail.Some?)
  {
    AddOther(rec.readys, src, env.me);
  }

  /** What is in flight, said, counted, logged and handed up after a handler ran. */
  lemma ExecFacts(c: Config, s: Sys, d: Node, o: Outcome, body: string, s': Sys)
    requires s' == Exec(c, s, d, o, body)
    ensures forall x :: x in s'.bag <==> x in s.bag || x in Emitted(c, d, o, body)
    ensures s'.log == s.log + Logged(c, d, o, body)
    ensures forall p, k :: Said(s', p, k) <==> Said(s, p, k) || (p == d && o.cast == Some(k))
    ensures forall p, k :: Said(s', p, k) ==>
              Words(s', p, k) == if p == d && o.cast == Some(k) then body else Words(s, p, k)
    ensures forall p, k :: s'.casts[Cast(p, k)] == s.casts[Cast(p, k)] + if p == d && o.cast == Some(k) then 1 else 0
    ensures forall p :: RecOf(s', p) == if p == d then o.rec else RecOf(s, p)
    ensures forall p :: OutOf(s', p) == OutOf(s, p) + if p == d && o.upcall then [body] else []
  {
    hide Emitted, Logged;
  }

  lemma AfterFacts(c: Config, s: Sys, pk: Packet, o: Outcome, s': Sys)
    requires pk in s.bag && s' == After(c, s, pk, o)
    ensures forall x :: x in s.bag && x != pk ==> x in s'.bag
    ensures forall x :: x in s'.bag ==> x in s.bag || x in Emitted(c, pk.dst, o, pk.body)
    ensures forall x :: x in Emitted(c, pk.dst, o, pk.body) ==> x in s'.bag
    ensures s'.log == s.log + Logged(c, pk.dst, o, pk.body)
    ensures forall p, k :: Said(s', p, k) <==> Said(s, p, k) || (p == pk.dst && o.cast == Some(k))
    ensures forall p, k :: Said(s', p, k) ==>
              Words(s', p, k) == if p == pk.dst && o.cast == Some(k) then pk.body else Words(s, p, k)
    ensures forall p, k ::
              s'.casts[Cast(p, k)] == s.casts[Cast(p, k)] + if p == pk.dst && o.cast == Some(k) then 1 else 0
    ensures forall p :: RecOf(s', p) == if p == pk.dst then o.rec else RecOf(s, p)
    ensures forall p :: OutOf(s', p) == OutOf(s, p) + if p == pk.dst && o.upcall then [pk.body] else []
  {
    hide Emitted, Logged, Exec;
    var rest := s.(bag := s.bag - multiset{pk});
    ExecFacts(c, rest, pk.dst, o, pk.body, s');
    assert forall p :: RecOf(rest, p) == RecOf(s, p) && OutOf(rest, p) == OutOf(s, p);
  }

  lemma EmittedFacts(c: Config, p: Node, o: Outcome, body: string, x: Packet)
    requires o.cast.Some? ==> !IsTail(o.cast.value)
    requires o.tail.Some? ==> IsTail(o.tail.value)
    ensures x in Emitted(c, p, o, body) <==>
      || (o.cast == Some(x.kind) && x == Packet(x.kind, p, x.dst, body) && x.dst in c.correct - {p})
      || (o.tail == Some(x.kind) && x == Packet(x.kind, p, p, body))
    ensures x in Logged(c, p, o, body) <==>
      o.cast == Some(x.kind) && x == Packet(x.kind, p, x.dst, body) && x.dst in c.nodes - {p}
  {
  }

  /** What the invariant proofs use of one delivery. */
  ghost predicate Clean(c: Config, s: Sys, pk: Packet, o: Outcome) {
    && pk in s.bag && Genuine(c, s, pk) && pk.dst in c.correct
    && (IsTail(pk.kind) <==> pk.src == pk.dst) && pk.kind != EchoTail
    && (!IsTail(pk.kind) ==> pk in s.log)
    && LocalAt(c, s, pk.dst)
    && Handles(pk.kind, pk.src, pk.dst, RecOf(s, pk.dst), o)
    && EchoesOnce(c, pk, RecOf(s, pk.dst), o)
    && (o.cast.Some? ==> !Said(s, pk.dst, o.cast.value))
    && (o.tail.Some? ==> o.tail == Some(ReadyTail))
  }

  lemma DeliveryIsClean(c: Config, s: Sys, pk: Packet)
    requires Wire(c, s) && Locals(c, s) && pk in s.bag
    ensures Clean(c, s, pk, Handled(c, RecOf(s, pk.dst), pk))
  {
    hide RecOf, OutOf, Said, Handles, SendStep, EchoStep, ReadyStep, ReadyTailStep, EchoQuorum, TailPending, Words;
    assert LocalAt(c, s, pk.dst);
    HandledHandles(c, RecOf(s, pk.dst), pk);
    HandledEchoesOnce(c, RecOf(s, pk.dst), pk);
  }

  lemma StillGenuine(c: Config, s: Sys, pk: Packet, o: Outcome, s': Sys, x: Packet)
    requires Legal(c) && Clean(c, s, pk, o) && s' == After(c, s, pk, o)
    ensures Genuine(c, s, x) ==> Genuine(c, s', x)
    ensures x in Logged(c, pk.dst, o, pk.body) || x in Emitted(c, pk.dst, o, pk.body) ==>
              Genuine(c, s', x) && EmittedFrom(x, c, pk, o)
  {
    hide After, Emitted, Logged, Said, Words, RecOf, OutOf, LocalAt;
    AfterFacts(c, s, pk, o, s');
    EmittedFacts(c, pk.dst, o, pk.body, x);
  }

  predicate EmittedFrom(x: Packet, c: Config, pk: Packet, o: Outcome) {
    && x.src == pk.dst && x.kind != EchoTail
    && (IsTail(x.kind) <==> x.src == x.dst)
    && (!IsTail(x.kind) ==> x in Logged(c, pk.dst, o, pk.body))
  }

  lemma WireAfter(c: Config, s: Sys, pk: Packet, o: Outcome, s': Sys)
    requires Legal(c) && Wire(c, s) && Log(c, s) && Clean(c, s, pk, o) && s' == After(c, s, pk, o)
    ensures Wire(c, s') && Log(c, s')
  {
    hide After, Emitted, Logged, Genuine, RecOf, OutOf, LocalAt;
    AfterFacts(c, s, pk, o, s');
    forall x
      ensures x in s'.bag ==> Genuine(c, s', x) && x.dst in c.correct
      ensures x in s'.bag ==> (IsTail(x.kind) <==> x.src == x.dst) && x.kind != EchoTail
      ensures x in s'.bag && !IsTail(x.kind) ==> x in s'.log
      ensures x in s'.log ==> Genuine(c, s', x) && !IsTail(x.kind)
    {
      StillGenuine(c, s, pk, o, s', x);
      EmittedFacts(c, pk.dst, o, pk.body, x);
    }
  }

  lemma TallyAfter(c: Config, s: Sys, pk: Packet, o: Outcome, s': Sys)
    requires Tally(c, s) && Clean(c, s, pk, o) && s' == After(c, s, pk, o)
    ensures Tally(c, s')
  {
    hide After, Emitted, Logged, Words, Said, RecOf, OutOf, LocalAt;
    AfterFacts(c, s, pk, o, s');
    forall p | p in c.correct
      ensures TallyAt(c, s', p)
    {
      assert TallyAt(c, s, p);
    }
  }

  lemma ReachedAfter(c: Config, s: Sys, pk: Packet, o: Outcome, s': Sys, p: Node, q: Node)
    requires Legal(c) && Reached(c, s, p, q) && Clean(c, s, pk, o) && s' == After(c, s, pk, o)
    requires p in c.correct && q in c.correct && p != q
    ensures Reached(c, s', p, q)
  {
    hide After, Emitted, Logged, Said, Words, RecOf, OutOf, LocalAt, EchoesOnce;
    AfterFacts(c, s, pk, o, s');
    EmittedFacts(c, pk.dst, o, pk.body, Packet(Echo, p, q, pk.body));
    EmittedFacts(c, pk.dst, o, pk.body, Packet(Ready, p, q, pk.body));
  }

  lemma FloodAfter(c: Config, s: Sys, pk: Packet, o: Outcome, s': Sys)
    requires Legal(c) && Flood(c, s) && Clean(c, s, pk, o) && s' == After(c, s, pk, o)
    ensures Flood(c, s')
  {
    hide After, Clean, Reached;
    forall p, q | p in c.correct && q in c.correct && p != q
      ensures Reached(c, s', p, q)
    {
      ReachedAfter(c, s, pk, o, s', p, q);
    }
  }

  lemma MoreTails(env: Env, rec: Rec, tail: bool)
    requires Local(env, rec, tail)
    ensures Local(env, rec, true)
  {
  }

  lemma TailsAfter(c: Config, s: Sys, pk: Packet, o: Outcome, s': Sys, p: Node)
    requires Clean(c, s, pk, o) && s' == After(c, s, pk, o)
    ensures TailPending(s, p) && (p != pk.dst || pk.kind != ReadyTail) ==> TailPending(s', p)
    ensures o.tail.Some? ==> TailPending(s', pk.dst)
  {
    hide After, Emitted, Logged, Words, Said, RecOf, OutOf, LocalAt, Genuine;
    AfterFacts(c, s, pk, o, s');
    if TailPending(s, p) && (p != pk.dst || pk.kind != ReadyTail) {
      var b: string :| Packet(ReadyTail, p, p, b) in s.bag;
      assert Packet(ReadyTail, p, p, b) in s'.bag;
    }
    EmittedFacts(c, pk.dst, o, pk.body, Packet(ReadyTail, pk.dst, pk.dst, pk.body));
  }

  lemma LocalRecAfter(c: Config, s: Sys, pk: Packet, s': Sys)
    requires s' == Deliver(c, s, pk) && Clean(c, s, pk, Handled(c, RecOf(s, pk.dst), pk))
    ensures Local(EnvOf(c, pk.dst), RecOf(s', pk.dst), TailPending(s', pk.dst))
  {
    hide After, Emitted, Logged, Words, Said, RecOf, OutOf, Local, Genuine, TailPending;
    var p, rec := pk.dst, RecOf(s, pk.dst);
    var env, o := EnvOf(c, p), Handled(c, rec, pk);
    AfterFacts(c, s, pk, o, s');
    TailsAfter(c, s, pk, o, s', p);
    match pk.kind {
      case Send => LocalAfterSend(env, rec, TailPending(s, p));
      case Echo => LocalAfterEcho(env, rec, pk.src, TailPending(s, p));
      case Ready => LocalAfterReady(env, rec, pk.src, TailPending(s, p));
      case ReadyTail => LocalAfterSend(env, rec, TailPending(s, p));
    }
    if TailPending(s', p) && (!TailPending(s, p) || pk.kind == ReadyTail) {
      MoreTails(env, o.rec, pk.kind == Ready && o.tail.Some?);
    }
  }

  lemma LocalsAfter(c: Config, s: Sys, pk: Packet, s': Sys)
    requires Locals(c, s) && s' == Deliver(c, s, pk)
    requires Clean(c, s, pk, Handled(c, RecOf(s, pk.dst), pk))
    ensures Locals(c, s')
  {
    hide After, Emitted, Logged, Words, RecOf, OutOf;
    hide Local, Genuine, TailPending, SendStep, EchoStep, ReadyStep, ReadyTailStep;
    var o := Handled(c, RecOf(s, pk.dst), pk);
    AfterFacts(c, s, pk, o, s');
    LocalRecAfter(c, s, pk, s');
    forall p | p in c.correct
      ensures LocalAt(c, s', p)
    {
      assert LocalAt(c, s, p);
      TailsAfter(c, s, pk, o, s', p);
      if p != pk.dst && TailPending(s', p) {
        MoreTails(EnvOf(c, p), RecOf(s, p), TailPending(s, p));
      }
    }
  }

  /** A first READY rests on an ECHO quorum, or on f+1 READYs of which a correct one came first. */
  lemma CausesAfter(c: Config, s: Sys, pk: Packet, o: Outcome, s': Sys)
    requires Legal(c) && Tally(c, s) && Locals(c, s) && Causes(c, s) && Tally(c, s')
    requires Locals(c, s') && Clean(c, s, pk, o) && s' == After(c, s, pk, o)
    ensures Causes(c, s')
  {
    hide After, Emitted, Logged, Words, Said, RecOf, OutOf, Local, Genuine, TailPending, Handles;
    AfterFacts(c, s, pk, o, s');
    TalliesGrow(c, s, pk, o, s');
    PromptsAfter(c, s, pk, o, s');
    var p := pk.dst;
    if o.cast == Some(Ready) && pk.kind != Echo {
      assert TallyAt(c, s', p);
      var r := CorrectReadier(c, s', p);
      assert LocalAt(c, s', r);
    }
  }

  lemma TalliesGrow(c: Config, s: Sys, pk: Packet, o: Outcome, s': Sys)
    requires Clean(c, s, pk, o) && s' == After(c, s, pk, o)
    ensures forall p :: RecOf(s', p).sentReady <==> RecOf(s, p).sentReady || (p == pk.dst && o.cast == Some(Ready))
    ensures QuorumSeen(c, s) ==> QuorumSeen(c, s')
    ensures pk.kind == Echo && o.cast == Some(Ready) ==> QuorumSeen(c, s')
  {
    hide After, RecOf, OutOf, LocalAt, Genuine, EchoQuorum;
    AfterFacts(c, s, pk, o, s');
    SubsetSize(RecOf(s, pk.dst).echos, o.rec.echos);
    if QuorumSeen(c, s) {
      var r :| r in c.correct && 2 * |RecOf(s, r).echos| >= |c.nodes| + c.f + 1;
      assert 2 * |RecOf(s', r).echos| >= |c.nodes| + c.f + 1;
    }
    if pk.kind == Echo && o.cast == Some(Ready) {
      assert 2 * |RecOf(s', pk.dst).echos| >= |c.nodes| + c.f + 1;
    }
  }

  /** The correct part of an ECHO tally consists of processes that echoed. */
  lemma QuorumEchoers(c: Config, s: Sys, p: Node)
    requires Legal(c) && Locals(c, s) && p in c.correct && TallyAt(c, s, p)
    requires 2 * |RecOf(s, p).echos| >= |c.nodes| + c.f + 1
    ensures 2 * (|Echoers(c, s)| + |Faulty(c)|) >= |c.nodes| + c.f + 1
  {
    hide RecOf, Said, Local, EchoQuorum, TailPending, OutOf;
    assert LocalAt(c, s, p);
    OwnEchoCounted(c, s, p);
    forall q | q in RecOf(s, p).echos - Faulty(c)
      ensures q in Echoers(c, s)
    {
      if q != p {
        assert LocalAt(c, s, q);
      }
    }
    SurvivorSize(RecOf(s, p).echos, Faulty(c));
    SubsetSize(RecOf(s, p).echos - Faulty(c), Echoers(c, s));
  }

  lemma OwnEchoCounted(c: Config, s: Sys, p: Node)
    requires LocalAt(c, s, p)
    ensures p in RecOf(s, p).echos <==> RecOf(s, p).sentEcho && c.countOwn
    ensures RecOf(s, p).seen <==> RecOf(s, p).sentEcho
  {
  }

  /** Among f+1 READYs one is from a correct process. */
  lemma CorrectReadier(c: Config, s: Sys, p: Node) returns (r: Node)
    requires Legal(c) && TallyAt(c, s, p) && |RecOf(s, p).readys| >= c.f + 1
    ensures r in RecOf(s, p).readys && r in c.correct && r != p && Said(s, r, Ready)
  {
    hide RecOf, Said;
    SurvivorSize(RecOf(s, p).readys, Faulty(c));
    assert |RecOf(s, p).readys - Faulty(c)| > 0;
    r :| r in RecOf(s, p).readys - Faulty(c);
  }

  lemma PromptsAfter(c: Config, s: Sys, pk: Packet, o: Outcome, s': Sys)
    requires Clean(c, s, pk, o) && s' == After(c, s, pk, o)
    requires forall p :: p in c.correct && RecOf(s, p).seen ==> Prompted(c, s, p)
    ensures forall p :: p in c.correct && RecOf(s', p).seen ==> Prompted(c, s', p)
  {
    hide After, Logged, RecOf, OutOf, LocalAt, Genuine, Handles;
    AfterFacts(c, s, pk, o, s');
    forall p | p in c.correct && RecOf(s', p).seen
      ensures Prompted(c, s', p)
    {
      if RecOf(s, p).seen && c.origin != Some(p) {
        assert Prompted(c, s, p);
        var x :| x in s.log && x.kind == Send && x.dst == p;
        assert x in s'.log;
      } else if c.origin != Some(p) {
        assert pk in s'.log && pk.kind == Send && pk.dst == p;
      }
    }
  }

  lemma StallsAfter(c: Config, s: Sys, pk: Packet, o: Outcome, s': Sys)
    requires Legal(c) && Tally(c, s) && Locals(c, s) && NoMutualStall(c, s)
    requires Clean(c, s, pk, o) && s' == After(c, s, pk, o)
    ensures NoMutualStall(c, s')
  {
    hide After, Emitted, Logged, Words, Said, RecOf, OutOf, Local, Genuine, TailPending, EchoQuorum;
    AfterFacts(c, s, pk, o, s');
    forall p, q | p in c.correct && q in c.correct && p != q && pk.dst != q
      ensures !Crossed(c, s', p, q)
    {
      assert !Crossed(c, s, p, q);
      assert TallyAt(c, s, q) && LocalAt(c, s, p);
      if p == pk.dst && Crossed(c, s', p, q) {
        NewStall(c, s, pk, o, s');
        OwnEchoCounted(c, s, p);
      }
    }
    assert forall p, q :: Crossed(c, s', p, q) == Crossed(c, s', q, p);
  }

  /** Only handling a first SEND leaves a process newly stalled or adds to a stalled tally. */
  lemma NewStall(c: Config, s: Sys, pk: Packet, o: Outcome, s': Sys)
    requires Clean(c, s, pk, o) && s' == After(c, s, pk, o) && Stalled(c, s', pk.dst)
    ensures (Stalled(c, s, pk.dst) && o.rec.echos == RecOf(s, pk.dst).echos)
         || (pk.kind == Send && !RecOf(s, pk.dst).seen)
  {
    hide After, Emitted, Logged, Words, Said, RecOf, OutOf, LocalAt, Genuine;
    AfterFacts(c, s, pk, o, s');
  }

  lemma InvAfterDeliver(c: Config, s: Sys, pk: Packet)
    requires Legal(c) && Inv(c, s) && pk in s.bag
    ensures Inv(c, Deliver(c, s, pk))
  {
    hide After, Wire, Log, Tally, Flood, Locals, Causes, NoMutualStall, Handled, Clean, RecOf;
    var o, s' := Handled(c, RecOf(s, pk.dst), pk), Deliver(c, s, pk);
    DeliveryIsClean(c, s, pk);
    WireAfter(c, s, pk, o, s');
    TallyAfter(c, s, pk, o, s');
    FloodAfter(c, s, pk, o, s');
    LocalsAfter(c, s, pk, s');
    DeliveryHasBag(c, s, pk, o);
    CausesAfter(c, s, pk, o, s');
    StallsAfter(c, s, pk, o, s');
  }

  lemma DeliveryHasBag(c: Config, s: Sys, pk: Packet, o: Outcome)
    requires Clean(c, s, pk, o)
    ensures pk in s.bag
  {
  }

  lemma InjectFacts(s: Sys, pk: Packet)
    ensures forall x :: x in Inject(s, pk).bag <==> x in s.bag || x == pk
    ensures forall p :: RecOf(Inject(s, pk), p) == RecOf(s, p) && OutOf(Inject(s, pk), p) == OutOf(s, p)
    ensures forall p, k :: Said(Inject(s, pk), p, k) == Said(s, p, k)
    ensures forall p, k :: Said(s, p, k) ==> Words(Inject(s, pk), p, k) == Words(s, p, k)
    ensures Inject(s, pk).casts == s.casts && Inject(s, pk).log == s.log + {pk}
  {
  }

  lemma LocalsAfterInject(c: Config, s: Sys, pk: Packet)
    requires Locals(c, s) && Flood(c, s) && MayInject(c, pk)
    ensures Locals(c, Inject(s, pk)) && Flood(c, Inject(s, pk))
  {
    hide Inject, RecOf, OutOf, Said, Words, Local;
    var s' := Inject(s, pk);
    InjectFacts(s, pk);
    forall p | p in c.correct
      ensures LocalAt(c, s', p)
    {
      assert LocalAt(c, s, p);
      assert TailPending(s', p) == TailPending(s, p);
    }
    forall p, q | p in c.correct && q in c.correct && p != q
      ensures Reached(c, s', p, q)
    {
      assert Reached(c, s, p, q);
    }
  }

  lemma MessagesAfterInject(c: Config, s: Sys, pk: Packet)
    requires Legal(c) && Wire(c, s) && Log(c, s) && MayInject(c, pk)
    ensures Wire(c, Inject(s, pk)) && Log(c, Inject(s, pk))
  {
    hide Inject, RecOf, OutOf, Said, Words;
    InjectFacts(s, pk);
    assert forall x :: Genuine(c, s, x) ==> Genuine(c, Inject(s, pk), x);
  }

  lemma TalliesAfterInject(c: Config, s: Sys, pk: Packet)
    requires Tally(c, s)
    ensures Tally(c, Inject(s, pk))
  {
    hide Inject, RecOf, Said;
    InjectFacts(s, pk);
    forall p | p in c.correct
      ensures TallyAt(c, Inject(s, pk), p)
    {
      assert TallyAt(c, s, p);
    }
  }

  lemma CausesAfterInject(c: Config, s: Sys, pk: Packet)
    requires Causes(c, s) && NoMutualStall(c, s)
    ensures Causes(c, Inject(s, pk)) && NoMutualStall(c, Inject(s, pk))
  {
    hide Inject, RecOf, EchoQuorum;
    var s' := Inject(s, pk);
    InjectFacts(s, pk);
    assert Echoers(c, s') == Echoers(c, s);
    forall p | p in c.correct && RecOf(s', p).seen
      ensures Prompted(c, s', p)
    {
      assert Prompted(c, s, p);
      if c.origin != Some(p) {
        var x :| x in s.log && x.kind == Send && x.dst == p;
        assert x in s'.log;
      }
    }
    forall p, q | p in c.correct && q in c.correct && p != q
      ensures !Crossed(c, s', p, q)
    {
      assert !Crossed(c, s, p, q);
    }
  }

  /** The network right before the initiator's ECHO: its SENDs are out. */
  function Opened(c: Config, o: Node): Sys {
    Sys(map[], multiset(Copies(Send, o, c.correct, c.body)), map[], multiset{}, Copies(Send, o, c.nodes, c.body), map[])
  }

  lemma OpenedFacts(c: Config, o: Node)
    ensures var s := Opened(c, o);
            && (forall x :: x in s.bag <==> x == Packet(Send, o, x.dst, c.body) && x.dst in c.correct - {o})
            && (forall x :: x in s.log <==> x == Packet(Send, o, x.dst, c.body) && x.dst in c.nodes - {o})
            && (forall p :: RecOf(s, p) == FRESH && OutOf(s, p) == [])
            && (forall p, k :: !Said(s, p, k) && s.casts[Cast(p, k)] == 0)
  {
  }

  lemma StartedFacts(c: Config, o: Node)
    requires Legal(c) && c.origin == Some(o)
    ensures var s := Started(c);
            && (forall x :: x in s.bag <==>
              (x.kind == Send || x.kind == Echo) && x == Packet(x.kind, o, x.dst, c.body) && x.dst in c.correct - {o})
            && (forall x :: x in s.log <==>
              (x.kind == Send || x.kind == Echo) && x == Packet(x.kind, o, x.dst, c.body) && x.dst in c.nodes - {o})
            && (forall p :: RecOf(s, p) == if p == o then StartStep(EnvOf(c, o)).rec else FRESH)
            && (forall p :: OutOf(s, p) == [])
            && (forall p, k :: Said(s, p, k) <==> p == o && k == Echo)
            && (Said(s, o, Echo) && Words(s, o, Echo) == c.body)
            && (forall p, k :: s.casts[Cast(p, k)] == if p == o && k == Echo then 1 else 0)
  {
    hide Exec, Emitted, Logged, RecOf, OutOf, Said, Words, Copies, Opened, OwnEcho;
    var out := StartStep(EnvOf(c, o));
    OpenedFacts(c, o);
    OpenedIsStart(c, o);
    ExecFacts(c, Opened(c, o), o, out, c.body, Started(c));
    forall x
      ensures x in Started(c).bag <==> x in Opened(c, o).bag || x in Emitted(c, o, out, c.body)
      ensures x in Emitted(c, o, out, c.body) <==> x == Packet(Echo, o, x.dst, c.body) && x.dst in c.correct - {o}
      ensures x in Logged(c, o, out, c.body) <==> x == Packet(Echo, o, x.dst, c.body) && x.dst in c.nodes - {o}
    {
      EmittedFacts(c, o, out, c.body, x);
    }
  }

  lemma OpenedIsStart(c: Config, o: Node)
    requires c.origin == Some(o)
    ensures Started(c) == Exec(c, Opened(c, o), o, StartStep(EnvOf(c, o)), c.body)
  {
    hide Exec, Copies, StartStep;
  }

  lemma LocalStarted(c: Config, p: Node)
    ensures Local(EnvOf(c, p), FRESH, false)
    ensures Local(EnvOf(c, p), StartStep(EnvOf(c, p)).rec, false)
  {
    assert FRESH.echos - {p} == {};
    assert ({} + {p}) - {p} == {};
  }

  lemma InvStarted(c: Config)
    requires Legal(c)
    ensures Inv(c, Started(c))
  {
    hide Local, StartStep, EchoQuorum;
    var s := Started(c);
    forall p | true
      ensures Local(EnvOf(c, p), FRESH, false) && Local(EnvOf(c, p), StartStep(EnvOf(c, p)).rec, false)
    {
      LocalStarted(c, p);
    }
    if c.origin.Some? {
      InvStartedBy(c, c.origin.value);
    }
  }

  lemma LocalsStarted(c: Config, o: Node)
    requires Legal(c) && c.origin == Some(o)
    ensures Locals(c, Started(c)) && Tally(c, Started(c))
  {
    hide Started, RecOf, OutOf, Said, Words, Local;
    var s := Started(c);
    StartedFacts(c, o);
    forall p | p in c.correct
      ensures LocalAt(c, s, p) && TallyAt(c, s, p)
    {
      LocalStarted(c, p);
      assert !TailPending(s, p);
    }
  }

  lemma MessagesStarted(c: Config, o: Node)
    requires Legal(c) && c.origin == Some(o)
    ensures Wire(c, Started(c)) && Log(c, Started(c)) && Flood(c, Started(c))
  {
    hide Started, RecOf, OutOf, Said, Words;
    StartedFacts(c, o);
    forall p, q | p in c.correct && q in c.correct && p != q
      ensures Reached(c, Started(c), p, q)
    {
    }
  }

  lemma InvStartedBy(c: Config, o: Node)
    requires Legal(c) && c.origin == Some(o)
    ensures Inv(c, Started(c))
  {
    hide Started, RecOf, OutOf, Said, Words, Locals, Tally, Wire, Log, Flood;
    StartedFacts(c, o);
    LocalsStarted(c, o);
    MessagesStarted(c, o);
    forall p, q | p in c.correct && q in c.correct && p != q
      ensures !Crossed(c, Started(c), p, q)
    {
    }
  }

  /** Every state of every run satisfies the invariant. */
  lemma {:induction false} RunKeepsInv(c: Config, run: seq<Sys>)
    requires Legal(c) && Run(c, run)
    ensures Inv(c, run[|run| - 1])
  {
    hide Inv, Deliver, Inject, MayInject, Started;
    var n := |run| - 1;
    if n == 0 {
      InvStarted(c);
    } else {
      assert Run(c, run[..n]);
      RunKeepsInv(c, run[..n]);
      assert Step(c, run[n - 1], run[n]);
      var pk: Packet :| StepOf(c, run[n - 1], pk, run[n]);
      if pk in run[n - 1].bag && run[n] == Deliver(c, run[n - 1], pk) {
        InvAfterDeliver(c, run[n - 1], pk);
      } else {
        InvAfterInject(c, run[n - 1], pk);
      }
    }
  }

  lemma InvAfterInject(c: Config, s: Sys, pk: Packet)
    requires Legal(c) && Inv(c, s) && MayInject(c, pk)
    ensures Inv(c, Inject(s, pk))
  {
    hide Inject, MayInject, Wire, Log, Tally, Flood, Locals, Causes, NoMutualStall;
    LocalsAfterInject(c, s, pk);
    MessagesAfterInject(c, s, pk);
    TalliesAfterInject(c, s, pk);
    CausesAfterInject(c, s, pk);
  }
}
