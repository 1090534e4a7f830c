/** A whole ring of Chang-Roberts processes: runs, safety, agreement at rest, termination. */
module RingElection {
  import opened Base
  import opened Ordering
  import opened Bags
  import opened ChangRoberts

  /** |ids[i]| is the configured id of the i-th process of the ring. */
  datatype Config = Config(ids: seq<int>)

  predicate Legal(c: Config) {
    |c.ids| >= 2 && Distinct(c.ids)
  }

  datatype Packet = Packet(at: nat, msg: Message)

  /** |launched|: an election message has been sent at all. */
  datatype Sys = Sys(leaders: seq<Option<int>>, begun: seq<bool>, bag: multiset<Packet>, launched: bool)

  function Next(i: nat, n: nat): nat { if i + 1 < n then i + 1 else 0 }

  /** Hops from |i| to |j|. */
  function Dist(i: nat, j: nat, n: nat): (d: int)
    ensures i < n && j < n ==> 0 <= d < n
  {
    if i <= j then j - i else j - i + n
  }

  function React(c: Config, s: Sys, i: nat, r: Reaction, bag: multiset<Packet>): Sys
    requires i < |s.leaders|
  {
    s.(leaders := s.leaders[i := r.leader],
       bag := bag + if r.sends.Some? then multiset{Packet(Next(i, |c.ids|), r.sends.value)} else multiset{})
  }

  function Started(c: Config): Sys {
    Sys(seq(|c.ids|, _ => None), seq(|c.ids|, _ => false), multiset{}, false)
  }

  predicate Sized(c: Config, s: Sys) {
    && |s.leaders| == |c.ids| && |s.begun| == |c.ids|
    && forall x :: x in s.bag ==> x.at < |c.ids|
  }

  function Handled(c: Config, leader: Option<int>, pk: Packet): Reaction
    requires pk.at < |c.ids|
  {
    match pk.msg
    case Election(e) => ElectionStep(c.ids[pk.at], leader, e)
    case Termination(l) => TerminationStep(c.ids[pk.at], leader, l)
  }

  function Deliver(c: Config, s: Sys, pk: Packet): Sys
    requires Sized(c, s) && pk in s.bag
  {
    React(c, s, pk.at, Handled(c, s.leaders[pk.at], pk), s.bag - multiset{pk})
  }

  /** Process |i| runs its start hook after its random delay. */
  function Begin(c: Config, s: Sys, i: nat): Sys
    requires Sized(c, s) && i < |c.ids|
  {
    var r := StartStep(c.ids[i], s.leaders[i]);
    React(c, s, i, r, s.bag).(begun := s.begun[i := true], launched := s.launched || r.sends.Some?)
  }

  predicate Delivers(c: Config, s: Sys, pk: Packet, s': Sys)
    requires Sized(c, s)
  {
    pk in s.bag && s' == Deliver(c, s, pk)
  }

  predicate Begins(c: Config, s: Sys, i: nat, s': Sys)
    requires Sized(c, s)
  {
    i < |c.ids| && !s.begun[i] && s' == Begin(c, s, i)
  }

  ghost predicate Step(c: Config, s: Sys, s': Sys) {
    && Sized(c, s)
    && ((exists pk: Packet :: Delivers(c, s, pk, s')) || (exists i: nat :: Begins(c, s, i, s')))
  }

  ghost predicate Run(c: Config, run: seq<Sys>) {
    && run != [] && run[0] == Started(c)
    && forall i :: 0 <= i < |run| - 1 ==> Step(c, run[i], run[i + 1])
  }

  // ----- the largest id

  predicate IsTop(c: Config, m: nat) {
    m < |c.ids| && forall i :: 0 <= i < |c.ids| ==> c.ids[i] <= c.ids[m]
  }

  lemma {:induction false} TopExists(ids: seq<int>) returns (m: nat)
    requires ids != []
    ensures m < |ids| && forall i :: 0 <= i < |ids| ==> ids[i] <= ids[m]
  {
    if |ids| == 1 {
      m := 0;
    } else {
      var k := TopExists(ids[..|ids| - 1]);
      m := if ids[k] < ids[|ids| - 1] then |ids| - 1 else k;
    }
  }

  // ----- what every run keeps; |m| is the position of the largest id, |k| how many are informed

  /** An elector has beaten everybody between its owner and the process it is about to reach. */
  ghost predicate Beaten(c: Config, owner: nat, at: nat, e: int) {
    && owner < |c.ids| && c.ids[owner] == e
    && forall x: nat :: x < |c.ids| && x != owner && (at == owner || Dist(owner, x, |c.ids|) < Dist(owner, at, |c.ids|))
         ==> c.ids[x] < e
  }

  ghost predicate ElectorOk(c: Config, at: nat, e: int) {
    exists owner: nat :: Beaten(c, owner, at, e)
  }

  /** How many processes a TERMINATION message on its way to |at| has informed. */
  function Reach(at: nat, m: nat, n: nat): int {
    if at == m then n else Dist(m, at, n)
  }

  ghost predicate PacketOk(c: Config, m: nat, k: nat, x: Packet)
    requires m < |c.ids|
  {
    && x.at < |c.ids|
    && match x.msg
       case Election(e) => ElectorOk(c, x.at, e)
       case Termination(l) => l == c.ids[m] && Reach(x.at, m, |c.ids|) <= k
  }

  /** The informed processes are the |k| that follow the winner, itself first. */
  ghost predicate Arc(c: Config, s: Sys, m: nat, k: nat)
    requires m < |c.ids| && Sized(c, s)
  {
    && k <= |c.ids|
    && forall i: nat :: i < |c.ids| ==>
         s.leaders[i] == if Dist(m, i, |c.ids|) < k then Some(c.ids[m]) else None
  }

  function Frontier(m: nat, k: nat, n: nat): nat { if m + k < n then m + k else m + k - n }

  ghost predicate Moving(c: Config, s: Sys, m: nat, k: nat)
    requires m < |c.ids| && Sized(c, s)
  {
    && (0 < k < |c.ids| ==> Packet(Frontier(m, k, |c.ids|), Termination(c.ids[m])) in s.bag)
    && (s.launched ==> k > 0 || exists x :: x in s.bag && x.msg.Election?)
    && ((exists i :: 0 <= i < |c.ids| && s.begun[i]) || k > 0 ==> s.launched)
    && (forall x :: x in s.bag && x.msg.Election? ==> s.launched)
  }

  ghost predicate Inv(c: Config, s: Sys, m: nat, k: nat) {
    && IsTop(c, m) && Sized(c, s) && Arc(c, s, m, k) && Moving(c, s, m, k)
    && forall x :: x in s.bag ==> PacketOk(c, m, k, x)
  }

  lemma BagAfter(c: Config, s: Sys, i: nat, r: Reaction, pk: Packet)
    requires i < |s.leaders| && pk in s.bag
    ensures var b := React(c, s, i, r, s.bag - multiset{pk}).bag;
            && (forall x :: x in b ==> x in s.bag || (r.sends.Some? && x == Packet(Next(i, |c.ids|), r.sends.value)))
            && (forall x :: x in s.bag && x != pk ==> x in b)
            && (r.sends.Some? ==> Packet(Next(i, |c.ids|), r.sends.value) in b)
  {
  }

  /** Passing on an elector, or putting oneself in its place, keeps it unbeaten so far. */
  lemma ElectorMoves(c: Config, at: nat, e: int)
    requires Legal(c) && at < |c.ids| && ElectorOk(c, at, e)
    ensures e != c.ids[at] ==> ElectorOk(c, Next(at, |c.ids|), if e > c.ids[at] then e else c.ids[at])
  {
    var owner: nat :| Beaten(c, owner, at, e);
    if e > c.ids[at] {
      assert Beaten(c, owner, Next(at, |c.ids|), e);
    } else if e < c.ids[at] {
      assert Beaten(c, at, Next(at, |c.ids|), c.ids[at]);
    }
  }

  lemma FreshElector(c: Config, i: nat)
    requires Legal(c) && i < |c.ids|
    ensures ElectorOk(c, Next(i, |c.ids|), c.ids[i])
  {
    assert Beaten(c, i, Next(i, |c.ids|), c.ids[i]);
  }

  /** An elector that comes home has beaten everybody. */
  lemma HomecomingIsTop(c: Config, m: nat, at: nat)
    requires Legal(c) && IsTop(c, m) && at < |c.ids| && ElectorOk(c, at, c.ids[at])
    ensures at == m
  {
    var owner: nat :| Beaten(c, owner, at, c.ids[at]);
    assert owner == at;
  }

  lemma AfterElection(c: Config, s: Sys, m: nat, k: nat, pk: Packet) returns (k': nat)
    requires Legal(c) && Inv(c, s, m, k) && pk in s.bag && pk.msg.Election?
    ensures Inv(c, Deliver(c, s, pk), m, k')
  {
    hide ElectorOk, Arc, Moving, Deliver;
    assert PacketOk(c, m, k, pk);
    if pk.msg.elector == c.ids[pk.at] {
      HomecomingIsTop(c, m, pk.at);
      AfterHomecoming(c, s, m, k, pk);
      k' := if k == 0 then 1 else k;
    } else {
      AfterPassing(c, s, m, k, pk);
      k' := k;
    }
  }

  /** The largest id comes home: its process is the first informed one. */
  lemma AfterHomecoming(c: Config, s: Sys, m: nat, k: nat, pk: Packet)
    requires Legal(c) && Inv(c, s, m, k) && pk in s.bag && pk.msg == Election(c.ids[m]) && pk.at == m
    ensures Inv(c, Deliver(c, s, pk), m, if k == 0 then 1 else k)
  {
    hide ElectorOk;
    BagAfter(c, s, m, Handled(c, s.leaders[m], pk), pk);
  }

  /** An elector is passed on or replaced. */
  lemma AfterPassing(c: Config, s: Sys, m: nat, k: nat, pk: Packet)
    requires Legal(c) && Inv(c, s, m, k) && pk in s.bag && pk.msg.Election? && pk.msg.elector != c.ids[pk.at]
    ensures Inv(c, Deliver(c, s, pk), m, k)
  {
    hide ElectorOk;
    BagAfter(c, s, pk.at, Handled(c, s.leaders[pk.at], pk), pk);
    assert PacketOk(c, m, k, pk);
    ElectorMoves(c, pk.at, pk.msg.elector);
    assert Deliver(c, s, pk).leaders == s.leaders;
  }

  /** TERMINATION reaching an informed process is dropped; the frontier's own is another one. */
  lemma AfterRepeat(c: Config, s: Sys, m: nat, k: nat, pk: Packet)
    requires Legal(c) && Inv(c, s, m, k) && pk in s.bag && pk.msg.Termination? && s.leaders[pk.at].Some?
    ensures Inv(c, Deliver(c, s, pk), m, k)
  {
    hide ElectorOk;
    BagAfter(c, s, pk.at, Handled(c, s.leaders[pk.at], pk), pk);
    assert PacketOk(c, m, k, pk);
    assert Deliver(c, s, pk).leaders == s.leaders;
  }

  /** TERMINATION reaching an uninformed process is at the frontier and moves it on by one. */
  lemma AfterInforming(c: Config, s: Sys, m: nat, k: nat, pk: Packet)
    requires Legal(c) && Inv(c, s, m, k) && pk in s.bag && pk.msg.Termination? && s.leaders[pk.at].None?
    ensures Inv(c, Deliver(c, s, pk), m, k + 1)
  {
    hide ElectorOk, Moving;
    var i, n, s' := pk.at, |c.ids|, Deliver(c, s, pk);
    BagAfter(c, s, i, Handled(c, s.leaders[i], pk), pk);
    assert PacketOk(c, m, k, pk);
    assert i == Frontier(m, k, n) && 0 < k < n && c.ids[i] != c.ids[m];
    assert Next(i, n) == (if k + 1 == n then m else Frontier(m, k + 1, n));
    InformingMoves(c, s, m, k, pk);
    assert Arc(c, s', m, k + 1);
  }

  lemma InformingMoves(c: Config, s: Sys, m: nat, k: nat, pk: Packet)
    requires m < |c.ids| && Sized(c, s) && Moving(c, s, m, k) && pk in s.bag && Sized(c, Deliver(c, s, pk))
    requires pk.msg == Termination(c.ids[m]) && s.leaders[pk.at].None? && c.ids[pk.at] != c.ids[m]
    requires 0 < k < |c.ids| && (k + 1 < |c.ids| ==> Next(pk.at, |c.ids|) == Frontier(m, k + 1, |c.ids|))
    ensures Moving(c, Deliver(c, s, pk), m, k + 1)
  {
    BagAfter(c, s, pk.at, Handled(c, s.leaders[pk.at], pk), pk);
  }

  lemma AfterTermination(c: Config, s: Sys, m: nat, k: nat, pk: Packet) returns (k': nat)
    requires Legal(c) && Inv(c, s, m, k) && pk in s.bag && pk.msg.Termination?
    ensures Inv(c, Deliver(c, s, pk), m, k')
  {
    hide Inv, Deliver;
    InvIsSized(c, s, m, k, pk);
    if s.leaders[pk.at].Some? {
      AfterRepeat(c, s, m, k, pk);
      k' := k;
    } else {
      AfterInforming(c, s, m, k, pk);
      k' := k + 1;
    }
  }

  lemma InvIsSized(c: Config, s: Sys, m: nat, k: nat, pk: Packet)
    requires Inv(c, s, m, k)
    ensures Sized(c, s)
  {
  }

  lemma AfterBegin(c: Config, s: Sys, m: nat, k: nat, i: nat)
    requires Legal(c) && Inv(c, s, m, k) && i < |c.ids|
    ensures Inv(c, Begin(c, s, i), m, k)
  {
    hide ElectorOk;
    FreshElector(c, i);
    var s' := Begin(c, s, i);
    var sent := Packet(Next(i, |c.ids|), Election(c.ids[i]));
    assert forall x :: x in s.bag ==> x in s'.bag;
    assert forall x :: x in s'.bag ==> x in s.bag || (x == sent && s.leaders[i].None?);
    assert s.leaders[i].None? ==> sent in s'.bag;
    assert s'.leaders == s.leaders;
  }

  lemma {:induction false} RunKeepsInv(c: Config, run: seq<Sys>, m: nat) returns (k: nat)
    requires Legal(c) && Run(c, run) && IsTop(c, m)
    ensures Inv(c, run[|run| - 1], m, k)
  {
    hide Inv, Deliver, Begin, Started;
    var n := |run| - 1;
    if n == 0 {
      StartedOk(c, m);
      k := 0;
    } else {
      assert Run(c, run[..n]);
      k := RunKeepsInv(c, run[..n], m);
      var s, s' := run[n - 1], run[n];
      assert Step(c, s, s');
      if pk: Packet :| Delivers(c, s, pk, s') {
        if pk.msg.Election? {
          k := AfterElection(c, s, m, k, pk);
        } else {
          k := AfterTermination(c, s, m, k, pk);
        }
      } else {
        var i: nat :| Begins(c, s, i, s');
        AfterBegin(c, s, m, k, i);
      }
    }
  }

  lemma StartedOk(c: Config, m: nat)
    requires Legal(c) && IsTop(c, m)
    ensures Inv(c, Started(c), m, 0)
  {
  }

  // ----- results

  /** Safety: only the largest id is ever anybody's leader, the informed processes are the
      winner and those that follow it, and until that arc closes a TERMINATION message is on its
      way to the first uninformed process. */
  lemma OnlyTheLargestWins(c: Config, run: seq<Sys>, m: nat) returns (k: nat)
    requires Legal(c) && Run(c, run) && IsTop(c, m)
    ensures Sized(c, run[|run| - 1]) && Arc(c, run[|run| - 1], m, k)
    ensures 0 < k < |c.ids| ==> Packet(Frontier(m, k, |c.ids|), Termination(c.ids[m])) in run[|run| - 1].bag
  {
    hide Step, PacketOk;
    k := RunKeepsInv(c, run, m);
  }

  /** Agreement: when at least one process has begun and nothing is in flight, every process has
      the largest id as its leader. */
  lemma Agreement(c: Config, run: seq<Sys>, m: nat, i: nat, starter: nat)
    requires Legal(c) && Run(c, run) && IsTop(c, m) && i < |c.ids|
    requires run[|run| - 1].bag == multiset{}
    requires starter < |run[|run| - 1].begun| && run[|run| - 1].begun[starter]
    ensures i < |run[|run| - 1].leaders| && run[|run| - 1].leaders[i] == Some(c.ids[m])
  {
    hide Step, PacketOk;
    var k := RunKeepsInv(c, run, m);
    assert k == |c.ids|;
  }

  /** A TERMINATION message never finds an uninformed process of its own id, so the Rust process
      reacts as the Python one in every run. */
  lemma RustAgrees(c: Config, run: seq<Sys>, pk: Packet)
    requires Legal(c) && Run(c, run) && pk in run[|run| - 1].bag
    ensures pk.at < |c.ids| && pk.at < |run[|run| - 1].leaders|
    ensures var leader := run[|run| - 1].leaders[pk.at];
            Handled(c, leader, pk) == match pk.msg
              case Election(e) => RustElectionStep(c.ids[pk.at], leader, e)
              case Termination(l) => RustTerminationStep(c.ids[pk.at], leader, l)
  {
    hide Step, ElectorOk, Moving;
    var m := TopExists(c.ids);
    var k := RunKeepsInv(c, run, m);
    assert PacketOk(c, m, k, pk);
  }

  // ----- runs end

  /** Deliveries until an election message is consumed. */
  function Remaining(c: Config, m: nat, at: nat, e: int): int
    requires m < |c.ids|
  {
    Dist(at, m, |c.ids|) + 1 + if e == c.ids[m] then 0 else |c.ids|
  }

  /** Every delivery of an election message that does not consume it brings it closer to that, and
      only the process with the largest id consumes it. */
  lemma ElectionIsConsumed(c: Config, m: nat, at: nat, e: int, leader: Option<int>)
    requires Legal(c) && IsTop(c, m) && at < |c.ids| && ElectorOk(c, at, e)
    ensures 1 <= Remaining(c, m, at, e)
    ensures forall i: nat :: i < |c.ids| ==> Remaining(c, m, Next(i, |c.ids|), c.ids[i]) <= 2 * |c.ids| - 1
    ensures match ElectionStep(c.ids[at], leader, e).sends
            case Some(Election(e')) => Remaining(c, m, Next(at, |c.ids|), e') < Remaining(c, m, at, e)
            case Some(Termination(l)) => l == c.ids[m] == e && at == m
            case None => false
  {
    hide ElectorOk;
    if e == c.ids[at] {
      HomecomingIsTop(c, m, at);
    } else {
      NotHomeAtTop(c, m, at, e);
    }
    assert forall i: nat :: i < |c.ids| && i != m ==> c.ids[i] != c.ids[m];
  }

  datatype Elector = Elector(at: nat, id: int)

  /** An election message, started by process |i|, after |k| deliveries; gone once it has turned
      into TERMINATION. */
  function Travelled(c: Config, i: nat, k: nat): Option<Elector>
    requires i < |c.ids|
    ensures Travelled(c, i, k).Some? ==> Travelled(c, i, k).value.at < |c.ids|
  {
    if k == 0 then Some(Elector(Next(i, |c.ids|), c.ids[i]))
    else match Travelled(c, i, k - 1)
      case None => None
      case Some(m) =>
        (match ElectionStep(c.ids[m.at], None, m.id).sends
         case Some(Election(e)) => Some(Elector(Next(m.at, |c.ids|), e))
         case _ => None)
  }

  lemma {:induction false} TravelCosts(c: Config, m: nat, i: nat, k: nat)
    requires Legal(c) && IsTop(c, m) && i < |c.ids|
    ensures match Travelled(c, i, k)
            case None => true
            case Some(x) => ElectorOk(c, x.at, x.id) && 1 <= Remaining(c, m, x.at, x.id) <= 2 * |c.ids| - 1 - k
  {
    hide ElectorOk, Remaining, IsTop, Next;
    if k == 0 {
      FreshElector(c, i);
      ElectionIsConsumed(c, m, Travelled(c, i, 0).value.at, c.ids[i], None);
    } else {
      TravelCosts(c, m, i, k - 1);
      if Travelled(c, i, k - 1).Some? {
        var x := Travelled(c, i, k - 1).value;
        ElectionIsConsumed(c, m, x.at, x.id, None);
        ElectorMoves(c, x.at, x.id);
        if Travelled(c, i, k).Some? {
          var y := Travelled(c, i, k).value;
          ElectionIsConsumed(c, m, y.at, y.id, None);
        }
      }
    }
  }

  /** Whoever starts it, an election message has ended after 2N-1 deliveries. */
  lemma ElectionEndsInTime(c: Config, i: nat)
    requires Legal(c) && i < |c.ids|
    ensures Travelled(c, i, 2 * |c.ids| - 1) == None
  {
    hide Travelled, Remaining;
    var m := TopExists(c.ids);
    TravelCosts(c, m, i, 2 * |c.ids| - 1);
  }

  lemma NotHomeAtTop(c: Config, m: nat, at: nat, e: int)
    requires Legal(c) && IsTop(c, m) && at < |c.ids| && ElectorOk(c, at, e) && e != c.ids[at]
    ensures at == m ==> e < c.ids[m]
    ensures e <= c.ids[m]
  {
  }

  ghost function WeightOf(c: Config, m: nat): Packet -> nat
    requires m < |c.ids|
  {
    (x: Packet) => match x.msg
         case Termination(_) => 1
         case Election(e) => if x.at < |c.ids| then 2 * Remaining(c, m, x.at, e) else 0
  }

  function Uninformed(leaders: seq<Option<int>>): nat {
    if leaders == [] then 0 else Uninformed(leaders[1..]) + if leaders[0].None? then 1 else 0
  }

  function Waiting(begun: seq<bool>): nat {
    if begun == [] then 0 else Waiting(begun[1..]) + if begun[0] then 0 else 1
  }

  ghost function Measure(c: Config, m: nat, s: Sys): nat
    requires m < |c.ids|
  {
    Sum(s.bag, WeightOf(c, m)) + Uninformed(s.leaders) + 4 * |c.ids| * Waiting(s.begun)
  }

  lemma {:induction false} UninformedUpdate(leaders: seq<Option<int>>, i: nat, leader: Option<int>)
    requires i < |leaders|
    ensures Uninformed(leaders[i := leader]) + (if leaders[i].None? then 1 else 0)
         == Uninformed(leaders) + if leader.None? then 1 else 0
  {
    if i > 0 {
      UninformedUpdate(leaders[1..], i - 1, leader);
      assert leaders[i := leader][1..] == leaders[1..][i - 1 := leader];
    } else {
      assert leaders[0 := leader][1..] == leaders[1..];
    }
  }

  lemma {:induction false} WaitingUpdate(begun: seq<bool>, i: nat)
    requires i < |begun| && !begun[i]
    ensures Waiting(begun[i := true]) + 1 == Waiting(begun)
  {
    if i > 0 {
      WaitingUpdate(begun[1..], i - 1);
      assert begun[i := true][1..] == begun[1..][i - 1 := true];
    } else {
      assert begun[0 := true][1..] == begun[1..];
    }
  }

  lemma ReactWeight(c: Config, m: nat, s: Sys, i: nat, r: Reaction, bag: multiset<Packet>)
    requires m < |c.ids| && i < |s.leaders|
    ensures Sum(React(c, s, i, r, bag).bag, WeightOf(c, m)) == Sum(bag, WeightOf(c, m)) +
              if r.sends.Some? then WeightOf(c, m)(Packet(Next(i, |c.ids|), r.sends.value)) else 0
  {
    hide WeightOf, Sum;
    if r.sends.Some? {
      SumInsert(bag, WeightOf(c, m), Packet(Next(i, |c.ids|), r.sends.value));
    } else {
      assert bag + multiset{} == bag;
    }
  }

  lemma DeliverConsumes(c: Config, s: Sys, m: nat, k: nat, pk: Packet)
    requires Legal(c) && Inv(c, s, m, k) && pk in s.bag
    ensures Measure(c, m, Deliver(c, s, pk)) < Measure(c, m, s)
  {
    hide Sum, ElectorOk, Moving, Arc, Beaten, Remaining;
    assert PacketOk(c, m, k, pk);
    var r := Handled(c, s.leaders[pk.at], pk);
    SumRemove(s.bag, WeightOf(c, m), pk);
    ReactWeight(c, m, s, pk.at, r, s.bag - multiset{pk});
    UninformedUpdate(s.leaders, pk.at, r.leader);
    if pk.msg.Election? {
      ElectionIsConsumed(c, m, pk.at, pk.msg.elector, s.leaders[pk.at]);
    }
  }

  lemma BeginConsumes(c: Config, s: Sys, m: nat, i: nat)
    requires Legal(c) && IsTop(c, m) && Sized(c, s) && i < |c.ids| && !s.begun[i]
    ensures Measure(c, m, Begin(c, s, i)) < Measure(c, m, s)
  {
    hide Sum, Remaining, ElectorOk, Waiting;
    var r, n := StartStep(c.ids[i], s.leaders[i]), |c.ids|;
    ReactWeight(c, m, s, i, r, s.bag);
    WaitingUpdate(s.begun, i);
    FreshElector(c, i);
    ElectionIsConsumed(c, m, Next(i, n), c.ids[i], None);
    assert s.leaders[i := s.leaders[i]] == s.leaders;
    FourMore(n, Waiting(s.begun), Waiting(Begin(c, s, i).begun));
  }

  lemma FourMore(n: nat, a: nat, b: nat)
    requires a == b + 1
    ensures 4 * n * a == 4 * n * b + 4 * n
  {
  }

  /** Every run of the ring is finite: its length is bounded by the initial measure. */
  lemma {:induction false} ElectionTerminates(c: Config, run: seq<Sys>, m: nat)
    requires Legal(c) && Run(c, run) && IsTop(c, m)
    ensures |run| - 1 + Measure(c, m, run[|run| - 1]) <= |c.ids| + 4 * |c.ids| * |c.ids|
  {
    hide Inv, Deliver, Begin, Started, Measure;
    var n := |run| - 1;
    if n == 0 {
      StartMeasure(c, m);
    } else {
      assert Run(c, run[..n]);
      ElectionTerminates(c, run[..n], m);
      var k := RunKeepsInv(c, run[..n], m);
      var s, s' := run[n - 1], run[n];
      assert Step(c, s, s');
      if pk: Packet :| Delivers(c, s, pk, s') {
        DeliverConsumes(c, s, m, k, pk);
      } else {
        var i: nat :| Begins(c, s, i, s');
        BeginConsumes(c, s, m, i);
      }
    }
  }

  lemma StartMeasure(c: Config, m: nat)
    requires m < |c.ids|
    ensures Measure(c, m, Started(c)) == |c.ids| + 4 * |c.ids| * |c.ids|
  {
    AllUninformed(|c.ids|);
  }

  lemma {:induction false} AllUninformed(n: nat)
    ensures Uninformed(seq(n, _ => None)) == n && Waiting(seq(n, _ => false)) == n
  {
    if n > 0 {
      AllUninformed(n - 1);
      assert seq<Option<int>>(n, _ => None)[1..] == seq(n - 1, _ => None);
      assert seq(n, _ => false)[1..] == seq(n - 1, _ => false);
    }
  }

  // ----- starts

  /** A start sends an election message to the successor if no leader is known, and nothing at all
      otherwise; it changes no leader. */
  lemma StartExactly(c: Config, s: Sys, i: nat)
    requires Sized(c, s) && i < |c.ids| && !s.begun[i]
    ensures var s' := Begin(c, s, i);
            && s'.leaders == s.leaders && s'.begun == s.begun[i := true]
            && s'.bag == s.bag + (if s.leaders[i].None? then multiset{Packet(Next(i, |c.ids|), Election(c.ids[i]))}
                                  else multiset{})
  {
  }

  /** A start that comes after the leader is known is silent. */
  lemma LateStartIsSilent(c: Config, run: seq<Sys>, k: nat, i: nat)
    requires Run(c, run) && k + 1 < |run| && i < |c.ids| && Sized(c, run[k]) && Begins(c, run[k], i, run[k + 1])
    requires run[k].leaders[i].Some?
    ensures run[k + 1].bag == run[k].bag && run[k + 1].leaders == run[k].leaders
  {
    hide Run, Begin;
    StartExactly(c, run[k], i);
    assert run[k].bag + multiset{} == run[k].bag;
  }

  ghost function IsElection(): Packet -> nat { (x: Packet) => if x.msg.Election? then 1 else 0 }

  /** The election messages in flight. */
  ghost function Elections(bag: multiset<Packet>): nat { Sum(bag, IsElection()) }

  predicate AllInformed(s: Sys) { forall i :: 0 <= i < |s.leaders| ==> s.leaders[i].Some? }

  lemma ReactElections(c: Config, s: Sys, i: nat, r: Reaction, bag: multiset<Packet>)
    requires i < |s.leaders|
    ensures Elections(React(c, s, i, r, bag).bag) ==
              Elections(bag) + if r.sends.Some? && r.sends.value.Election? then 1 else 0
  {
    hide Sum;
    if r.sends.Some? {
      SumInsert(bag, IsElection(), Packet(Next(i, |c.ids|), r.sends.value));
    } else {
      assert bag + multiset{} == bag;
    }
  }

  lemma InformedStep(c: Config, s: Sys, s': Sys)
    requires Step(c, s, s') && AllInformed(s)
    ensures AllInformed(s') && Elections(s'.bag) <= Elections(s.bag)
  {
    hide Elections, Deliver, Begin, AllInformed;
    if pk: Packet :| Delivers(c, s, pk, s') {
      InformedDelivery(c, s, pk);
    } else {
      var i: nat :| Begins(c, s, i, s');
      InformedStart(c, s, i);
    }
  }

  lemma InformedDelivery(c: Config, s: Sys, pk: Packet)
    requires Sized(c, s) && pk in s.bag && pk.at < |c.ids| && AllInformed(s)
    ensures AllInformed(Deliver(c, s, pk)) && Elections(Deliver(c, s, pk).bag) <= Elections(s.bag)
  {
    hide Elections;
    ReactElections(c, s, pk.at, Handled(c, s.leaders[pk.at], pk), s.bag - multiset{pk});
    OneElectionLess(s.bag, pk);
  }

  lemma InformedStart(c: Config, s: Sys, i: nat)
    requires Sized(c, s) && i < |c.ids| && !s.begun[i] && AllInformed(s)
    ensures AllInformed(Begin(c, s, i)) && Begin(c, s, i).bag == s.bag
  {
    hide Elections, Begin;
    StartExactly(c, s, i);
    assert s.bag + multiset{} == s.bag;
  }

  lemma OneElectionLess(bag: multiset<Packet>, pk: Packet)
    requires pk in bag
    ensures Elections(bag) == Elections(bag - multiset{pk}) + if pk.msg.Election? then 1 else 0
  {
    hide Sum;
    SumRemove(bag, IsElection(), pk);
  }

  /** Once every process is informed the election messages still in flight only get fewer: nobody
      starts another election. */
  lemma {:induction false} NoElectionAfterwards(c: Config, run: seq<Sys>, i: nat, j: nat)
    requires Run(c, run) && i <= j < |run| && AllInformed(run[i])
    ensures AllInformed(run[j]) && Elections(run[j].bag) <= Elections(run[i].bag)
  {
    hide Step, Elections, AllInformed, Started;
    if i < j {
      NoElectionAfterwards(c, run, i, j - 1);
      assert Step(c, run[j - 1], run[j - 1 + 1]);
      InformedStep(c, run[j - 1], run[j]);
    }
  }

  /** The two programs react alike except to one message, which no run brings about: TERMINATION with
      its own id at a process that knows no leader. There Python keeps it and Rust sends it on. */
  lemma RustAgreesExactly(nodeId: int, leader: Option<int>, elector: int)
    ensures RustElectionStep(nodeId, leader, elector) == ElectionStep(nodeId, leader, elector)
    ensures RustTerminationStep(nodeId, leader, elector) == TerminationStep(nodeId, leader, elector)
      <==> leader.Some? || elector != nodeId
    ensures TerminationStep(nodeId, None, nodeId) == Reaction(Some(nodeId), None)
  {
  }
}
