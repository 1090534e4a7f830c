/** All processes of one optimized Bracha broadcast over reliable links: runs, what every run
    keeps, and what every run that has come to rest has achieved. */
module BrachaOptimizedRun {
  import opened Base
  import opened Ordering
  import opened BrachaRecord
  import opened BrachaOptimized

  /** |omit| are processes that may lose messages addressed to them but otherwise follow the
      program; |nbrs| are the sender's direct neighbours. */
  datatype Config = Config(
    nodes: set<Node>, sender: Node, payload: string, f: nat,
    flags: Flags, nbrs: set<Node>, omit: set<Node>)

  predicate Legal(c: Config) {
    && c.sender in c.nodes
    && c.nbrs <= c.nodes - {c.sender}
    && c.omit <= c.nodes - {c.sender}
    && (c.flags.singleHop ==> c.flags.amplify)
    && |c.nodes| >= 3 * c.f + 1
  }

  datatype Packet = Packet(kind: Kind, src: Node, dst: Node, sender: Node, payload: string)

  /** |bag| holds what is in flight, suspended handlers included; |casts| counts the broadcasts
      made and |out| lists what each process handed up. */
  datatype Sys = Sys(
    recs: map<Node, Rec>, bag: multiset<Packet>,
    casts: multiset<Cast>, out: map<Node, seq<string>>)

  function RecOf(s: Sys, p: Node): Rec { if p in s.recs then s.recs[p] else FRESH }

  function OutOf(s: Sys, p: Node): seq<string> { if p in s.out then s.out[p] else [] }

  function EnvOf(c: Config, p: Node): Env { Env(p, c.nodes, c.f, c.flags) }

  /** One copy of a message for every target but the source. */
  function Fanout(kind: Kind, src: Node, targets: set<Node>, sender: Node, payload: string): multiset<Packet> {
    multiset(set q | q in targets && q != src :: Packet(kind, src, q, sender, payload))
  }

  function SendTargets(c: Config): set<Node> {
    if c.flags.singleHop then c.nbrs else c.nodes - {c.sender}
  }

  /** What a handler's outcome adds to the messages in flight. */
  function Emitted(c: Config, p: Node, o: Outcome, sender: Node, payload: string): multiset<Packet> {
    (if o.cast.Some? then Fanout(o.cast.value, p, c.nodes, sender, payload) else multiset{}) +
    (if o.tail.Some? then multiset{Packet(o.tail.value, p, p, sender, payload)} else multiset{})
  }

  function Recorded(p: Node, o: Outcome): multiset<Cast> {
    if o.cast.Some? then multiset{Cast(p, o.cast.value)} else multiset{}
  }

  function Exec(c: Config, s: Sys, p: Node, o: Outcome, sender: Node, payload: string): Sys {
    Sys(s.recs[p := o.rec],
        s.bag + Emitted(c, p, o, sender, payload),
        s.casts + Recorded(p, o),
        if o.upcall then s.out[p := OutOf(s, p) + [payload]] else s.out)
  }

  /** The state right after the sender's start hook. */
  function Started(c: Config): Sys {
    Exec(c,
         Sys(map[], Fanout(Send, c.sender, SendTargets(c), c.sender, c.payload), multiset{}, map[]),
         c.sender, StartStep(EnvOf(c, c.sender)), c.sender, c.payload)
  }

  function Handled(c: Config, rec: Rec, pk: Packet): Outcome {
    match pk.kind
    case Send => SendStep(EnvOf(c, pk.dst), rec, pk.sender)
    case Echo => EchoStep(EnvOf(c, pk.dst), rec, pk.src, pk.sender)
    case Ready => ReadyStep(EnvOf(c, pk.dst), rec, pk.src, pk.sender)
    case EchoTail => EchoTailStep(EnvOf(c, pk.dst), rec, pk.sender)
    case ReadyTail => ReadyTailStep(EnvOf(c, pk.dst), rec)
  }

  function Lose(s: Sys, pk: Packet): Sys { s.(bag := s.bag - multiset{pk}) }

  /** The state once the addressee of |pk| has run its handler with outcome |o|. */
  function After(c: Config, s: Sys, pk: Packet, o: Outcome): Sys {
    Exec(c, Lose(s, pk), pk.dst, o, pk.sender, pk.payload)
  }

  function Deliver(c: Config, s: Sys, pk: Packet): Sys {
    After(c, s, pk, Handled(c, RecOf(s, pk.dst), pk))
  }

  ghost predicate StepOf(c: Config, s: Sys, pk: Packet, s': Sys) {
    && pk in s.bag
    && (s' == Deliver(c, s, pk) || (pk.dst in c.omit && !IsTail(pk.kind) && s' == Lose(s, pk)))
  }

  ghost predicate Step(c: Config, s: Sys, s': Sys) {
    exists pk: Packet :: StepOf(c, s, pk, s')
  }

  ghost predicate Run(c: Config, run: seq<Sys>) {
    && run != [] && run[0] == Started(c)
    && forall i :: 0 <= i < |run| - 1 ==> Step(c, run[i], run[i + 1])
  }

  /** Nothing addressed to a process that keeps its messages is undelivered. */
  ghost predicate Quiescent(c: Config, s: Sys) {
    forall pk :: pk in s.bag ==> pk.dst in c.omit
  }

  // ----- what one process keeps about itself

  /** |echoTail|, |readyTail|: a suspended handler of this process exists; |echoed|: it has
      broadcast an ECHO. */
  predicate Local(env: Env, sender: Node, rec: Rec, echoTail: bool, readyTail: bool, echoed: bool) {
    && ReadySide(env, rec, ReadyEligible(env, sender), echoTail, readyTail)
    && EchoSide(env, sender, rec, EchoEligible(env, sender), echoTail, echoed)
  }

  /** What the READY thresholds and the upcall owe. */
  predicate ReadySide(env: Env, rec: Rec, inReady: bool, echoTail: bool, readyTail: bool) {
    && (|rec.readys| >= env.f + 1 && inReady ==> rec.sentReady)
    && (|rec.readys| >= 2 * env.f + 1 ==> rec.delivered || readyTail)
    && (2 * |rec.echos - {env.me}| >= |env.ids| + env.f + 1 && inReady ==> rec.sentReady || echoTail)
    && (rec.delivered ==> |rec.readys| >= 2 * env.f + 1)
    && (rec.sentReady ==> inReady)
  }

  /** What SEND, the amplification rules and the silent-echo rule owe. */
  predicate EchoSide(env: Env, sender: Node, rec: Rec, inEcho: bool, echoTail: bool, echoed: bool) {
    && (env.flags.amplify && |rec.echos - {env.me}| >= env.f + 1 && inEcho ==> rec.sentEcho)
    && (env.flags.amplify && rec.readys != {} ==> rec.sentEcho)
    && (rec.seen && env.me != sender && (env.flags.singleHop || !env.flags.reduced || inEcho) ==> rec.sentEcho)
    && (env.me == sender ==> rec.seen && (inEcho ==> rec.sentEcho))
    && (rec.sentEcho && !echoed ==> rec.readys != {} && (inEcho ==> |rec.readys| >= env.f + 1))
    && (env.flags.amplify && rec.sentReady && inEcho ==> rec.sentEcho)
    && (echoed || echoTail || env.me in rec.echos ==> rec.sentEcho)
  }

  /** How a handler run changes the three flags of |Local|. */
  predicate FlagsAfter(kind: Kind, o: Outcome, t: bool, r: bool, e: bool, t': bool, r': bool, e': bool) {
    && ((t && kind != EchoTail) || o.tail == Some(EchoTail) ==> t')
    && (t' ==> t || o.tail == Some(EchoTail))
    && ((r && kind != ReadyTail) || o.tail == Some(ReadyTail) ==> r')
    && (r' ==> r || o.tail == Some(ReadyTail))
    && (e' <==> e || o.cast == Some(Echo))
  }

  lemma LocalAfterSend(env: Env, sender: Node, rec: Rec, t: bool, r: bool, e: bool, t': bool, r': bool, e': bool)
    requires Local(env, sender, rec, t, r, e)
    requires FlagsAfter(Send, SendStep(env, rec, sender), t, r, e, t', r', e')
    ensures Local(env, sender, SendStep(env, rec, sender).rec, t', r', e')
  {
    hide EchoEligible, ReadyEligible, EchoQuorum;
    AddOther(rec.echos, env.me, env.me);
  }

  lemma LocalAfterEcho(env: Env, sender: Node, rec: Rec, src: Node, t: bool, r: bool,
                       e: bool, t': bool, r': bool, e': bool)
    requires Local(env, sender, rec, t, r, e) && |env.ids| >= env.f
    requires FlagsAfter(Echo, EchoStep(env, rec, src, sender), t, r, e, t', r', e')
    requires src != env.me
    ensures Local(env, sender, EchoStep(env, rec, src, sender).rec, t', r', e')
  {
    hide EchoEligible, ReadyEligible, ReadySide, EchoSide;
    ReadySideAfterEcho(env, sender, rec, src, t, r, e, t', r', e');
    EchoSideAfterEcho(env, sender, rec, src, t, r, e, t', r', e');
  }

  lemma ReadySideAfterEcho(env: Env, sender: Node, rec: Rec, src: Node, t: bool,
                           r: bool, e: bool, t': bool, r': bool, e': bool)
    requires ReadySide(env, rec, ReadyEligible(env, sender), t, r) && |env.ids| >= env.f
    requires FlagsAfter(Echo, EchoStep(env, rec, src, sender), t, r, e, t', r', e')
    ensures ReadySide(env, EchoStep(env, rec, src, sender).rec, ReadyEligible(env, sender), t', r')
  {
    hide EchoEligible, ReadyEligible;
    AddOther(rec.echos, src, env.me);
  }

  lemma EchoSideAfterEcho(env: Env, sender: Node, rec: Rec, src: Node, t: bool,
                          r: bool, e: bool, t': bool, r': bool, e': bool)
    requires EchoSide(env, sender, rec, EchoEligible(env, sender), t, e) && src != env.me && |env.ids| >= env.f
    requires FlagsAfter(Echo, EchoStep(env, rec, src, sender), t, r, e, t', r', e')
    ensures EchoSide(env, sender, EchoStep(env, rec, src, sender).rec, EchoEligible(env, sender), t', e')
  {
    hide EchoEligible, ReadyEligible, EchoQuorum, EchoTailStep;
    EchoTailKeeps(env, rec.(echos := rec.echos + {src}), sender);
    AddOther(rec.echos, src, env.me);
  }

  lemma EchoTailKeeps(env: Env, rec: Rec, sender: Node)
    requires |env.ids| >= env.f
    ensures var o := EchoTailStep(env, rec, sender);
            && o.rec.(sentReady := rec.sentReady) == rec && o.cast in {None, Some(Ready)} && o.tail == None
            && (o.rec.sentReady ==> rec.sentReady || |rec.echos| >= env.f + 1)
  {
    hide ReadyEligible;
  }

  lemma LocalAfterReady(env: Env, sender: Node, rec: Rec, src: Node, t: bool, r: bool,
                        e: bool, t': bool, r': bool, e': bool)
    requires Local(env, sender, rec, t, r, e)
    requires FlagsAfter(Ready, ReadyStep(env, rec, src, sender), t, r, e, t', r', e')
    ensures Local(env, sender, ReadyStep(env, rec, src, sender).rec, t', r', e')
  {
    hide EchoEligible, ReadyEligible, ReadySide, EchoSide, EchoQuorum;
    ReadySideAfterReady(env, sender, rec, src, t, r, e, t', r', e');
    EchoSideAfterReady(env, sender, rec, src, t, r, e, t', r', e');
  }

  lemma ReadySideAfterReady(env: Env, sender: Node, rec: Rec, src: Node, t: bool,
                            r: bool, e: bool, t': bool, r': bool, e': bool)
    requires ReadySide(env, rec, ReadyEligible(env, sender), t, r)
    requires FlagsAfter(Ready, ReadyStep(env, rec, src, sender), t, r, e, t', r', e')
    ensures ReadySide(env, ReadyStep(env, rec, src, sender).rec, ReadyEligible(env, sender), t', r')
  {
    hide EchoEligible, ReadyEligible, EchoQuorum;
    AddOwn(rec.echos, env.me);
    SubsetSize(rec.readys, rec.readys + {src});
  }

  lemma EchoSideAfterReady(env: Env, sender: Node, rec: Rec, src: Node, t: bool,
                           r: bool, e: bool, t': bool, r': bool, e': bool)
    requires EchoSide(env, sender, rec, EchoEligible(env, sender), t, e)
    requires FlagsAfter(Ready, ReadyStep(env, rec, src, sender), t, r, e, t', r', e')
    ensures EchoSide(env, sender, ReadyStep(env, rec, src, sender).rec, EchoEligible(env, sender), t', e')
  {
    hide EchoEligible, ReadyEligible, EchoQuorum, ReadyTailStep;
    ReadyTailKeeps(env, rec.(readys := rec.readys + {src}));
    ReadyTailKeeps(env, OwnEcho(env, rec.(readys := rec.readys + {src})));
    AddOwn(rec.echos, env.me);
    SubsetSize(rec.readys, rec.readys + {src});
  }

  lemma ReadyTailKeeps(env: Env, rec: Rec)
    ensures var o := ReadyTailStep(env, rec);
            o.rec.(delivered := rec.delivered) == rec && o.cast == None && o.tail == None
  {
  }

  lemma AddOwn(s: set<Node>, me: Node)
    ensures (s + {me}) - {me} == s - {me}
  {
  }

  lemma LocalAfterTail(env: Env, sender: Node, rec: Rec, t: bool, r: bool, e: bool, t': bool, r': bool, e': bool)
    requires Local(env, sender, rec, t, r, e)
    ensures FlagsAfter(EchoTail, EchoTailStep(env, rec, sender), t, r, e, t', r', e')
      ==> Local(env, sender, EchoTailStep(env, rec, sender).rec, t', r', e')
    ensures FlagsAfter(ReadyTail, ReadyTailStep(env, rec), t, r, e, t', r', e')
      ==> Local(env, sender, ReadyTailStep(env, rec).rec, t', r', e')
  {
    hide EchoEligible, ReadyEligible, EchoQuorum, ReadySide, EchoSide;
    ReadySideAfterTail(env, sender, rec, t, r, e, t', r', e');
    EchoSideAfterTail(env, sender, rec, t, r, e, t', r', e');
  }

  lemma ReadySideAfterTail(env: Env, sender: Node, rec: Rec, t: bool, r: bool, e: bool, t': bool, r': bool, e': bool)
    requires ReadySide(env, rec, ReadyEligible(env, sender), t, r)
    ensures FlagsAfter(EchoTail, EchoTailStep(env, rec, sender), t, r, e, t', r', e')
      ==> ReadySide(env, EchoTailStep(env, rec, sender).rec, ReadyEligible(env, sender), t', r')
    ensures FlagsAfter(ReadyTail, ReadyTailStep(env, rec), t, r, e, t', r', e')
      ==> ReadySide(env, ReadyTailStep(env, rec).rec, ReadyEligible(env, sender), t', r')
  {
    hide ReadyEligible, EchoQuorum;
    SubsetSize(rec.echos - {env.me}, rec.echos);
  }

  lemma EchoSideAfterTail(env: Env, sender: Node, rec: Rec, t: bool, r: bool, e: bool, t': bool, r': bool, e': bool)
    requires Local(env, sender, rec, t, r, e)
    ensures FlagsAfter(EchoTail, EchoTailStep(env, rec, sender), t, r, e, t', r', e')
      ==> EchoSide(env, sender, EchoTailStep(env, rec, sender).rec, EchoEligible(env, sender), t', e')
    ensures FlagsAfter(ReadyTail, ReadyTailStep(env, rec), t, r, e, t', r', e')
      ==> EchoSide(env, sender, ReadyTailStep(env, rec).rec, EchoEligible(env, sender), t', e')
  {
    hide EchoEligible, ReadyEligible;
    ReadyTailKeeps(env, rec);
  }

  // ----- what every run keeps

  function Pk(c: Config, kind: Kind, p: Node, q: Node): Packet { Packet(kind, p, q, c.sender, c.payload) }

  predicate Made(s: Sys, p: Node, kind: Kind) { Cast(p, kind) in s.casts }

  predicate Genuine(c: Config, s: Sys, pk: Packet) {
    && pk.sender == c.sender && pk.payload == c.payload
    && pk.src in c.nodes && pk.dst in c.nodes
    && (IsTail(pk.kind) <==> pk.src == pk.dst)
    && (pk.kind == Send ==> pk.dst in SendTargets(c))
    && (pk.kind == Echo || pk.kind == Ready ==> Made(s, pk.src, pk.kind))
  }

  /** Everything in flight was really sent by a process following the program. */
  ghost predicate Wire(c: Config, s: Sys) {
    forall pk :: pk in s.bag ==> Genuine(c, s, pk)
  }

  /** Everything tallied was really broadcast by somebody else, or is the own ECHO. */
  ghost predicate Tally(c: Config, s: Sys) {
    && (forall p, q :: p in c.nodes && q in RecOf(s, p).echos && q != p ==> q in c.nodes && Made(s, q, Echo))
    && (forall p, q :: p in c.nodes && q in RecOf(s, p).readys ==> q in c.nodes && q != p && Made(s, q, Ready))
  }

  /** A broadcast reaches every process that does not lose it, unless it is still in flight. */
  ghost predicate Flood(c: Config, s: Sys) {
    && (forall p, q :: p in c.nodes && q in c.nodes - c.omit && p != q && Made(s, p, Echo)
          ==> Pk(c, Echo, p, q) in s.bag || p in RecOf(s, q).echos)
    && (forall p, q :: p in c.nodes && q in c.nodes - c.omit && p != q && Made(s, p, Ready)
          ==> Pk(c, Ready, p, q) in s.bag || p in RecOf(s, q).readys)
    && (forall q :: q in SendTargets(c) - c.omit ==> Pk(c, Send, c.sender, q) in s.bag || RecOf(s, q).seen)
  }

  /** READY and the upcall happen at most once, and the upcall carries the sender's payload. */
  ghost predicate Once(c: Config, s: Sys) {
    && (forall p :: p in c.nodes ==> s.casts[Cast(p, Ready)] == if RecOf(s, p).sentReady then 1 else 0)
    && (forall p :: p in c.nodes ==> OutOf(s, p) == if RecOf(s, p).delivered then [c.payload] else [])
  }

  predicate LocalAt(c: Config, s: Sys, p: Node) {
    Local(EnvOf(c, p), c.sender, RecOf(s, p),
          Pk(c, EchoTail, p, p) in s.bag, Pk(c, ReadyTail, p, p) in s.bag, Made(s, p, Echo))
  }

  ghost predicate Locals(c: Config, s: Sys) {
    forall p :: p in c.nodes ==> LocalAt(c, s, p)
  }

  ghost predicate Inv(c: Config, s: Sys) {
    Wire(c, s) && Tally(c, s) && Flood(c, s) && Once(c, s) && Locals(c, s)
  }

  lemma HandlesSend(env: Env, rec: Rec, src: Node, sender: Node)
    ensures Handles(Send, src, env.me, rec, SendStep(env, rec, sender))
  {
    hide EchoEligible, ReadyEligible;
  }

  lemma HandlesTails(env: Env, rec: Rec, src: Node, sender: Node)
    ensures Handles(EchoTail, src, env.me, rec, EchoTailStep(env, rec, sender))
    ensures Handles(ReadyTail, src, env.me, rec, ReadyTailStep(env, rec))
  {
    hide ReadyEligible, EchoQuorum;
  }

  lemma HandlesEcho(env: Env, rec: Rec, src: Node, sender: Node)
    ensures Handles(Echo, src, env.me, rec, EchoStep(env, rec, src, sender))
  {
    hide EchoEligible, ReadyEligible, EchoQuorum;
  }

  lemma HandlesReady(env: Env, rec: Rec, src: Node, sender: Node)
    ensures Handles(Ready, src, env.me, rec, ReadyStep(env, rec, src, sender))
  {
    hide EchoEligible, ReadyEligible;
  }

  lemma HandledHandles(c: Config, rec: Rec, pk: Packet)
    ensures Handles(pk.kind, pk.src, pk.dst, rec, Handled(c, rec, pk))
  {
    hide SendStep, EchoStep, ReadyStep, EchoTailStep, ReadyTailStep, Handles;
    var env := EnvOf(c, pk.dst);
    HandlesSend(env, rec, pk.src, pk.sender);
    HandlesTails(env, rec, pk.src, pk.sender);
    HandlesEcho(env, rec, pk.src, pk.sender);
    HandlesReady(env, rec, pk.src, pk.sender);
  }

  /** What is in flight, recorded and handed up after a handler ran. */
  lemma AfterFacts(c: Config, s: Sys, pk: Packet, o: Outcome, s': Sys)
    requires pk in s.bag && s' == After(c, s, pk, o)
    ensures forall x :: x in s'.bag <==> x in s.bag - multiset{pk} || x in Emitted(c, pk.dst, o, pk.sender, pk.payload)
    ensures forall x :: x in s.bag && x != pk ==> x in s'.bag
    ensures forall x :: x in s'.bag ==> x in s.bag || x in Emitted(c, pk.dst, o, pk.sender, pk.payload)
    ensures forall p, k :: Made(s', p, k) <==> Made(s, p, k) || (p == pk.dst && o.cast == Some(k))
    ensures forall p, k ::
              s'.casts[Cast(p, k)] == s.casts[Cast(p, k)] + if p == pk.dst && o.cast == Some(k) then 1 else 0
    ensures forall p :: RecOf(s', p) == if p == pk.dst then o.rec else RecOf(s, p)
    ensures forall p :: OutOf(s', p) == OutOf(s, p) + if p == pk.dst && o.upcall then [pk.payload] else []
  {
    hide Emitted;
  }

  lemma EmittedFacts(c: Config, p: Node, o: Outcome, sender: Node, payload: string, x: Packet)
    ensures x in Emitted(c, p, o, sender, payload) <==>
      || (o.cast == Some(x.kind) && x == Packet(x.kind, p, x.dst, sender, payload) && x.dst in c.nodes - {p})
      || (o.tail == Some(x.kind) && x == Packet(x.kind, p, p, sender, payload))
  {
  }

  lemma WireAfter(c: Config, s: Sys, pk: Packet, o: Outcome, s': Sys)
    requires Wire(c, s) && pk in s.bag && s' == After(c, s, pk, o)
    requires Handles(pk.kind, pk.src, pk.dst, RecOf(s, pk.dst), o)
    ensures Wire(c, s')
  {
    hide After, Emitted, Made, RecOf, OutOf;
    AfterFacts(c, s, pk, o, s');
    assert Genuine(c, s, pk);
    forall x | x in s'.bag
      ensures Genuine(c, s', x)
    {
      EmittedFacts(c, pk.dst, o, pk.sender, pk.payload, x);
      assert x in s.bag ==> Genuine(c, s, x);
    }
  }

  lemma TallyAfter(c: Config, s: Sys, pk: Packet, o: Outcome, s': Sys)
    requires Wire(c, s) && Tally(c, s) && pk in s.bag && s' == After(c, s, pk, o)
    requires Handles(pk.kind, pk.src, pk.dst, RecOf(s, pk.dst), o)
    ensures Tally(c, s')
  {
    hide After, Emitted, Made, RecOf, OutOf;
    AfterFacts(c, s, pk, o, s');
    assert Genuine(c, s, pk);
  }

  lemma FloodAfter(c: Config, s: Sys, pk: Packet, o: Outcome, s': Sys)
    requires Wire(c, s) && Flood(c, s) && pk in s.bag && s' == After(c, s, pk, o)
    requires Handles(pk.kind, pk.src, pk.dst, RecOf(s, pk.dst), o)
    ensures Flood(c, s')
  {
    hide After, Emitted, Made, RecOf, OutOf;
    AfterFacts(c, s, pk, o, s');
    assert Genuine(c, s, pk);
    forall p, q, k | p in c.nodes && q in c.nodes - c.omit && p != q && Made(s', p, k) && (k == Echo || k == Ready)
      ensures Pk(c, k, p, q) in s'.bag
           || (k == Echo && p in RecOf(s', q).echos) || (k == Ready && p in RecOf(s', q).readys)
    {
      EmittedFacts(c, pk.dst, o, pk.sender, pk.payload, Pk(c, k, p, q));
    }
  }

  lemma OnceAfter(c: Config, s: Sys, pk: Packet, o: Outcome, s': Sys)
    requires Wire(c, s) && Once(c, s) && pk in s.bag && s' == After(c, s, pk, o)
    requires Handles(pk.kind, pk.src, pk.dst, RecOf(s, pk.dst), o)
    ensures Once(c, s')
  {
    hide After, Emitted, Made, RecOf, OutOf;
    AfterFacts(c, s, pk, o, s');
    assert Genuine(c, s, pk);
  }

  lemma LocalsAfter(c: Config, s: Sys, pk: Packet, s': Sys)
    requires Legal(c) && Wire(c, s) && Locals(c, s) && pk in s.bag && s' == Deliver(c, s, pk)
    ensures Locals(c, s')
  {
    hide After, Emitted, Made, RecOf, OutOf, Local, SendStep, EchoStep, ReadyStep, EchoTailStep, ReadyTailStep;
    var rec, p := RecOf(s, pk.dst), pk.dst;
    var o := Handled(c, rec, pk);
    AfterFacts(c, s, pk, o, s');
    assert Genuine(c, s, pk);
    forall q | q in c.nodes
      ensures LocalAt(c, s', q)
    {
      assert LocalAt(c, s, q);
      EmittedFacts(c, p, o, pk.sender, pk.payload, Pk(c, EchoTail, q, q));
      EmittedFacts(c, p, o, pk.sender, pk.payload, Pk(c, ReadyTail, q, q));
      if q == p {
        HandledHandles(c, rec, pk);
        LocalAfterHandled(c, s, pk, s');
      }
    }
  }

  lemma LocalAfterHandled(c: Config, s: Sys, pk: Packet, s': Sys)
    requires Legal(c) && Wire(c, s) && pk in s.bag && LocalAt(c, s, pk.dst)
    requires s' == Deliver(c, s, pk)
    ensures LocalAt(c, s', pk.dst)
  {
    hide After, Emitted, Made, RecOf, OutOf, Local, SendStep, EchoStep, ReadyStep, EchoTailStep, ReadyTailStep;
    var p, env := pk.dst, EnvOf(c, pk.dst);
    var rec := RecOf(s, p);
    var o := Handled(c, rec, pk);
    AfterFacts(c, s, pk, o, s');
    assert Genuine(c, s, pk);
    HandledHandles(c, rec, pk);
    EmittedFacts(c, p, o, pk.sender, pk.payload, Pk(c, EchoTail, p, p));
    EmittedFacts(c, p, o, pk.sender, pk.payload, Pk(c, ReadyTail, p, p));
    var t, r, e := Pk(c, EchoTail, p, p) in s.bag, Pk(c, ReadyTail, p, p) in s.bag, Made(s, p, Echo);
    var t', r', e' := Pk(c, EchoTail, p, p) in s'.bag, Pk(c, ReadyTail, p, p) in s'.bag, Made(s', p, Echo);
    assert FlagsAfter(pk.kind, o, t, r, e, t', r', e');
    match pk.kind
    case Send => LocalAfterSend(env, c.sender, rec, t, r, e, t', r', e');
    case Echo => LocalAfterEcho(env, c.sender, rec, pk.src, t, r, e, t', r', e');
    case Ready => LocalAfterReady(env, c.sender, rec, pk.src, t, r, e, t', r', e');
    case EchoTail => LocalAfterTail(env, c.sender, rec, t, r, e, t', r', e');
    case ReadyTail => LocalAfterTail(env, c.sender, rec, t, r, e, t', r', e');
  }

  lemma InvAfterDeliver(c: Config, s: Sys, pk: Packet)
    requires Legal(c) && Inv(c, s) && pk in s.bag
    ensures Inv(c, Deliver(c, s, pk))
  {
    hide After, Wire, Tally, Flood, Once, Locals;
    var o := Handled(c, RecOf(s, pk.dst), pk);
    HandledHandles(c, RecOf(s, pk.dst), pk);
    WireAfter(c, s, pk, o, Deliver(c, s, pk));
    TallyAfter(c, s, pk, o, Deliver(c, s, pk));
    FloodAfter(c, s, pk, o, Deliver(c, s, pk));
    OnceAfter(c, s, pk, o, Deliver(c, s, pk));
    LocalsAfter(c, s, pk, Deliver(c, s, pk));
  }

  lemma LoseFacts(s: Sys, pk: Packet)
    requires pk in s.bag
    ensures forall x :: x in Lose(s, pk).bag ==> x in s.bag
    ensures forall x :: x in s.bag && x != pk ==> x in Lose(s, pk).bag
    ensures forall p :: RecOf(Lose(s, pk), p) == RecOf(s, p) && OutOf(Lose(s, pk), p) == OutOf(s, p)
    ensures forall p, k :: Made(Lose(s, pk), p, k) == Made(s, p, k)
    ensures Lose(s, pk).casts == s.casts
  {
  }

  lemma FloodAfterLose(c: Config, s: Sys, pk: Packet)
    requires Flood(c, s) && pk in s.bag && pk.dst in c.omit
    ensures Flood(c, Lose(s, pk))
  {
    hide Lose, RecOf, OutOf, Made;
    LoseFacts(s, pk);
  }

  lemma LocalsAfterLose(c: Config, s: Sys, pk: Packet)
    requires Wire(c, s) && Locals(c, s) && pk in s.bag && !IsTail(pk.kind)
    ensures Wire(c, Lose(s, pk)) && Locals(c, Lose(s, pk))
  {
    hide Lose, RecOf, OutOf, Made, Local;
    LoseFacts(s, pk);
    forall p | p in c.nodes ensures LocalAt(c, Lose(s, pk), p) { assert LocalAt(c, s, p); }
    forall x | x in Lose(s, pk).bag ensures Genuine(c, Lose(s, pk), x) { assert Genuine(c, s, x); }
  }

  lemma InvAfterLose(c: Config, s: Sys, pk: Packet)
    requires Inv(c, s) && pk in s.bag && pk.dst in c.omit && !IsTail(pk.kind)
    ensures Inv(c, Lose(s, pk))
  {
    hide Lose, RecOf, OutOf, Made, Flood, Locals, Wire;
    LoseFacts(s, pk);
    FloodAfterLose(c, s, pk);
    LocalsAfterLose(c, s, pk);
  }

  lemma LocalStarted(c: Config, p: Node)
    requires Legal(c)
    ensures var o := StartStep(EnvOf(c, c.sender));
            Local(EnvOf(c, p), c.sender, if p == c.sender then o.rec else FRESH, false, false,
                  p == c.sender && o.cast == Some(Echo))
  {
    hide EchoEligible, ReadyEligible;
    assert FRESH.echos - {p} == {};
    assert ({} + {p}) - {p} == {};
  }

  lemma StartedFacts(c: Config)
    requires Legal(c)
    ensures var s, o := Started(c), StartStep(EnvOf(c, c.sender));
            && (forall x :: x in s.bag <==>
              || (x == Pk(c, Send, c.sender, x.dst) && x.dst in SendTargets(c) - {c.sender})
              || (o.cast == Some(Echo) && x == Pk(c, Echo, c.sender, x.dst) && x.dst in c.nodes - {c.sender}))
            && (forall p :: RecOf(s, p) == if p == c.sender then o.rec else FRESH)
            && (forall p, k :: s.casts[Cast(p, k)] == if p == c.sender && o.cast == Some(k) then 1 else 0)
            && (forall p :: OutOf(s, p) == [])
  {
    hide EchoEligible, ReadyEligible;
  }

  lemma MessagesStarted(c: Config)
    requires Legal(c)
    ensures Wire(c, Started(c)) && Tally(c, Started(c)) && Once(c, Started(c))
  {
    hide Started, RecOf, OutOf, EchoEligible;
    StartedFacts(c);
  }

  lemma FloodStarted(c: Config)
    requires Legal(c)
    ensures Flood(c, Started(c))
  {
    hide Started, RecOf, OutOf, EchoEligible, SendTargets;
    var s, o := Started(c), StartStep(EnvOf(c, c.sender));
    StartedFacts(c);
    assert c.sender !in SendTargets(c) by { SendTargetsAreOthers(c); }
    assert forall q :: q in SendTargets(c) ==> Pk(c, Send, c.sender, q) in s.bag;
    assert forall q :: q in c.nodes - {c.sender} && o.cast == Some(Echo) ==> Pk(c, Echo, c.sender, q) in s.bag;
  }

  lemma SendTargetsAreOthers(c: Config)
    requires Legal(c)
    ensures c.sender !in SendTargets(c)
  {
  }

  lemma InvStarted(c: Config)
    requires Legal(c)
    ensures Inv(c, Started(c))
  {
    hide Started, RecOf, OutOf, Local, Wire, Tally, Once, Flood, EchoEligible;
    var s, o := Started(c), StartStep(EnvOf(c, c.sender));
    MessagesStarted(c);
    FloodStarted(c);
    StartedFacts(c);
    forall p | p in c.nodes
      ensures LocalAt(c, s, p)
    {
      LocalStarted(c, p);
    }
  }

  /** Every state of every run satisfies the invariant. */
  lemma {:induction false} RunKeepsInv(c: Config, run: seq<Sys>)
    requires Legal(c) && Run(c, run)
    ensures Inv(c, run[|run| - 1])
  {
    hide Inv, Deliver, Lose, Started;
    var n := |run| - 1;
    if n == 0 {
      InvStarted(c);
    } else {
      assert Run(c, run[..n]);
      RunKeepsInv(c, run[..n]);
      assert Step(c, run[n - 1], run[n]);
      var pk: Packet :| StepOf(c, run[n - 1], pk, run[n]);
      if run[n] == Deliver(c, run[n - 1], pk) {
        InvAfterDeliver(c, run[n - 1], pk);
      } else {
        InvAfterLose(c, run[n - 1], pk);
      }
    }
  }
}
