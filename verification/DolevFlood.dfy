/** One naive Dolev flood over a whole topology: runs, with correct, silent and lying processes. */
module DolevFlood {
  import opened Base
  import opened Ordering
  import opened Topology
  import opened DolevNaive

  /** The faulty processes are those outside |correct|; |liars| are the faulty ones that send
      anything. |origin| is the process that broadcast the message id, if it is correct. */
  datatype Config = Config(
    nodes: set<Node>, nbrs: Neighbours, correct: set<Node>, liars: set<Node>,
    f: nat, origin: Option<Node>)

  predicate Legal(c: Config) {
    && c.correct <= c.nodes
    && c.liars <= c.nodes - c.correct
    && (c.origin.Some? ==> c.origin.value in c.correct)
  }

  function Nbrs(c: Config, p: Node): set<Node> { NbrsOf(c.nbrs, p) }

  function Faulty(c: Config): set<Node> { c.nodes - c.correct }

  function EnvOf(c: Config, p: Node): Env { Env(p, c.nodes - {p}, Nbrs(c, p), c.f) }

  /** A flooded message on its way, or the delivery check a process still has to make for the
      message it has just forwarded. */
  datatype Packet = Flood(src: Node, dst: Node, source: Node, path: Path)
                  | Check(dst: Node, source: Node)

  /** |as| is the source each process attributed its delivery to. */
  datatype Sys = Sys(states: map<Node, State>, bag: multiset<Packet>, attributed: map<Node, Node>)

  function StateOf(s: Sys, p: Node): State { if p in s.states then s.states[p] else IDLE }

  function PathsOf(s: Sys, p: Node): seq<Path> { StateOf(s, p).paths }

  /** Copies for the reliable recipients; what faulty ones do with theirs is their affair. */
  function Copies(c: Config, src: Node, targets: set<Node>, source: Node, path: Path): set<Packet> {
    set q | q in targets && q in c.correct :: Flood(src, q, source, path)
  }

  function Started(c: Config): Sys {
    match c.origin
    case None => Sys(map[], multiset{}, map[])
    case Some(o) => Sys(map[], multiset(Copies(c, o, (c.nodes - {o}) * Nbrs(c, o), o, [])), map[])
  }

  function Deliver(c: Config, s: Sys, pk: Packet): Sys {
    var rest := s.bag - multiset{pk};
    var st := StateOf(s, pk.dst);
    match pk
    case Flood(src, p, source, path) =>
      (match FloodStep(EnvOf(c, p), st, src, path)
       case Ignored => s.(bag := rest)
       case Recorded(st', longer, targets) =>
         s.(states := s.states[p := st'],
            bag := rest + multiset(Copies(c, p, targets, source, longer)) + multiset{Check(p, source)}))
    case Check(p, source) =>
      var (st', upcall) := CheckStep(EnvOf(c, p), st, source);
      Sys(s.states[p := st'], rest, if upcall then s.attributed[p := source] else s.attributed)
  }

  /** A liar floods anything to anybody, under its own name only. */
  predicate MayInject(c: Config, pk: Packet) {
    pk.Flood? && pk.src in c.liars && pk.dst in c.correct
  }

  function Inject(s: Sys, pk: Packet): Sys { s.(bag := s.bag + multiset{pk}) }

  ghost predicate StepOf(c: Config, s: Sys, pk: Packet, s': Sys) {
    (pk in s.bag && s' == Deliver(c, s, pk)) || (MayInject(c, pk) && s' == Inject(s, pk))
  }

  ghost predicate Step(c: Config, s: Sys, s': Sys) {
    exists pk: Packet :: StepOf(c, s, pk, s')
  }

  ghost predicate Run(c: Config, run: seq<Sys>) {
    && run != [] && run[0] == Started(c)
    && forall i :: 0 <= i < |run| - 1 ==> Step(c, run[i], run[i + 1])
  }

  ghost predicate Quiescent(s: Sys) { forall pk :: pk !in s.bag }

  // ----- one step, as the proofs use it

  /** The message reaches a process that has its sender as a neighbour. */
  ghost predicate Heard(c: Config, pk: Packet)
    ensures Heard(c, pk) ==> pk.Flood?
  {
    pk.Flood? && pk.src in Nbrs(c, pk.dst)
  }

  ghost predicate Forwarded(c: Config, pk: Packet, x: Packet)
    requires pk.Flood?
  {
    var longer := pk.path + [pk.src];
    && x.Flood? && x.src == pk.dst && x.source == pk.source && x.path == longer
    && x.dst in Nbrs(c, pk.dst) && x.dst in c.nodes && x.dst in c.correct
    && x.dst != pk.dst && x.dst !in Elems(longer)
  }

  /** What goes out when |pk| is heard. */
  function Forwards(c: Config, pk: Packet): set<Packet>
    requires pk.Flood?
  {
    var longer := pk.path + [pk.src];
    var env := EnvOf(c, pk.dst);
    Copies(c, pk.dst, env.peers * env.nbrs - Elems(longer), pk.source, longer)
  }

  lemma ForwardsFacts(c: Config, pk: Packet, x: Packet)
    requires pk.Flood?
    ensures x in Forwards(c, pk) <==> Forwarded(c, pk, x)
  {
    if Forwarded(c, pk, x) {
      assert x == Flood(pk.dst, x.dst, pk.source, pk.path + [pk.src]);
    }
  }

  lemma DeliverBag(c: Config, s: Sys, pk: Packet)
    requires pk in s.bag
    ensures Deliver(c, s, pk).bag == s.bag - multiset{pk} +
              (if Heard(c, pk) then multiset(Forwards(c, pk)) + multiset{Check(pk.dst, pk.source)} else multiset{})
  {
    hide Accepts;
  }

  lemma DeliverPaths(c: Config, s: Sys, pk: Packet, p: Node)
    requires pk in s.bag
    ensures var was, now := PathsOf(s, p), PathsOf(Deliver(c, s, pk), p);
            now == if p == pk.dst && Heard(c, pk) && pk.path + [pk.src] !in was then was + [pk.path + [pk.src]] else was
  {
    hide Accepts, Copies;
  }

  /** What a delivery changes: at most the addressee's paths grow by the path heard, and the
      path heard goes out to the addressee's neighbours not on it. */
  lemma DeliverFacts(c: Config, s: Sys, pk: Packet, s': Sys)
    requires pk in s.bag && s' == Deliver(c, s, pk)
    ensures forall p, x: Path :: x in PathsOf(s', p) <==>
              x in PathsOf(s, p) || (p == pk.dst && Heard(c, pk) && x == pk.path + [pk.src])
    ensures forall x :: x in s.bag && x != pk ==> x in s'.bag
    ensures forall x: Packet :: x.Flood? && x in s'.bag ==> x in s.bag || (Heard(c, pk) && Forwarded(c, pk, x))
    ensures forall x: Packet :: Heard(c, pk) && Forwarded(c, pk, x) ==> x in s'.bag
  {
    hide Deliver, PathsOf, Forwards, Heard, Forwarded;
    DeliverBag(c, s, pk);
    forall p, x: Path
      ensures x in PathsOf(s', p) <==> x in PathsOf(s, p) || (p == pk.dst && Heard(c, pk) && x == pk.path + [pk.src])
    {
      DeliverPaths(c, s, pk, p);
    }
    forall x: Packet
      ensures Heard(c, pk) ==> (x in Forwards(c, pk) <==> Forwarded(c, pk, x))
    {
      if Heard(c, pk) {
        ForwardsFacts(c, pk, x);
      }
    }
  }
}
