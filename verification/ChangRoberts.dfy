/** One process of the Chang-Roberts election, in which a larger process replaces a smaller
    elector by itself instead of swallowing the message. */
module ChangRoberts {
  import opened Base
  import opened Ordering

  datatype Message = Election(elector: int) | Termination(leader: int)

  /** A process after a handler, and what it sends to its successor. */
  datatype Reaction = Reaction(leader: Option<int>, sends: Option<Message>)

  /** The ring successor: the next id in sorted order, wrapping round. */
  function Successor(ids: set<Node>, me: Node): Node
    requires me in ids
  {
    var order := Sorted(ids);
    assert me in Elems(order);
    order[Wrap(IndexOf(order, me) + 1, |order|)]
  }

  function StartStep(nodeId: int, leader: Option<int>): Reaction {
    Reaction(leader, if leader.Some? then None else Some(Election(nodeId)))
  }

  function ElectionStep(nodeId: int, leader: Option<int>, elector: int): Reaction {
    if elector == nodeId then Reaction(Some(nodeId), Some(Termination(nodeId)))
    else if elector > nodeId then Reaction(leader, Some(Election(elector)))
    else Reaction(leader, Some(Election(nodeId)))
  }

  function TerminationStep(nodeId: int, leader: Option<int>, elected: int): Reaction {
    if leader.Some? then Reaction(leader, None)
    else Reaction(Some(elected), if elected != nodeId then Some(Termination(elected)) else None)
  }

  // ----- the Rust process: the larger of the two ids goes on, and TERMINATION always does

  function RustElectionStep(nodeId: int, leader: Option<int>, elector: int): Reaction {
    if elector == nodeId then Reaction(Some(nodeId), Some(Termination(nodeId)))
    else Reaction(leader, Some(Election(if elector > nodeId then elector else nodeId)))
  }

  function RustTerminationStep(nodeId: int, leader: Option<int>, elected: int): Reaction {
    if leader.Some? then Reaction(leader, None) else Reaction(Some(elected), Some(Termination(elected)))
  }

  class ChangRobertsNode {
    const me: Node
    const peers: set<Node>
    const nodeId: int
    var leader: Option<int>
    var nextPeer: Option<Node>

    predicate Valid()
      reads this
    {
      nextPeer.Some? ==> nextPeer.value == Successor(peers + {me}, me)
    }

    constructor (me: Node, peers: set<Node>, nodeId: int)
      ensures Valid() && leader == None
      ensures this.me == me && this.peers == peers && this.nodeId == nodeId
    {
      this.me, this.peers, this.nodeId := me, peers, nodeId;
      leader, nextPeer := None, None;
    }

    /** The successor, computed once and then remembered. */
    method GetNextPeer() returns (next: Node)
      requires Valid()
      modifies this`nextPeer
      ensures Valid() && next == Successor(peers + {me}, me)
    {
      hide Sorted, IndexOf, Wrap;
      if nextPeer.Some? {
        return nextPeer.value;
      }
      var allIds := Sorted(peers + {me});
      assert me in Elems(allIds);
      next := allIds[Wrap(IndexOf(allIds, me) + 1, |allIds|)];
      nextPeer := Some(next);
    }

    method OnStart() returns (to: Node, sends: Option<Message>)
      requires Valid()
      modifies this
      ensures Valid() && to == Successor(peers + {me}, me)
      ensures Reaction(leader, sends) == StartStep(nodeId, old(leader))
    {
      to := GetNextPeer();
      sends := None;
      if leader.Some? {
        return;
      }
      sends := Some(Election(nodeId));
    }

    method OnElection(elector: int) returns (to: Node, sends: Option<Message>)
      requires Valid()
      modifies this
      ensures Valid() && to == Successor(peers + {me}, me)
      ensures Reaction(leader, sends) == ElectionStep(nodeId, old(leader), elector)
    {
      to := GetNextPeer();
      if elector == nodeId {
        leader := Some(nodeId);
        sends := Some(Termination(nodeId));
      } else if elector > nodeId {
        sends := Some(Election(elector));
      } else {
        sends := Some(Election(nodeId));
      }
    }

    method OnTermination(elected: int) returns (to: Node, sends: Option<Message>)
      requires Valid()
      modifies this
      ensures Valid() && (sends.Some? ==> to == Successor(peers + {me}, me))
      ensures Reaction(leader, sends) == TerminationStep(nodeId, old(leader), elected)
    {
      to, sends := me, None;
      if leader.Some? {
        return;
      }
      to := GetNextPeer();
      leader := Some(elected);
      if elected != nodeId {
        sends := Some(Termination(elected));
      }
    }
  }

  /** The successor is the next larger id, or the smallest if there is none. */
  lemma SuccessorExactly(ids: set<Node>, me: Node)
    requires me in ids
    ensures Successor(ids, me) in ids && Between(ids, me, Successor(ids, me)) == {}
    ensures |ids| >= 2 ==> Successor(ids, me) != me
  {
    hide Sorted, IndexOf, Between, Wrap;
    var order := Sorted(ids);
    assert me in Elems(order);
    var i := IndexOf(order, me);
    SuccessorIsMember(ids, me);
    NextIsNext(order, i);
    if |ids| >= 2 {
      AscendingDistinct(order);
      WrapMoves(i, |order|);
    }
  }

  lemma WrapMoves(i: nat, n: nat)
    requires i < n && n >= 2
    ensures Wrap(i + 1, n) != i
  {
    hide Wrap;
  }

  // ----- the successor map is one cycle

  function Hop(ids: set<Node>, start: Node, k: nat): (p: Node)
    requires start in ids
    ensures p in ids
  {
    if k == 0 then start
    else
      var before := Hop(ids, start, k - 1);
      SuccessorIsMember(ids, before);
      Successor(ids, before)
  }

  lemma SuccessorIsMember(ids: set<Node>, p: Node)
    requires p in ids
    ensures Successor(ids, p) in ids
  {
    var order := Sorted(ids);
    assert p in Elems(order);
    assert Successor(ids, p) in Elems(order);
  }

  lemma SuccessorAt(ids: set<Node>, j: nat)
    requires j < |Sorted(ids)|
    ensures Sorted(ids)[j] in ids
    ensures Successor(ids, Sorted(ids)[j]) == Sorted(ids)[Wrap(j + 1, |Sorted(ids)|)]
  {
    hide Sorted, IndexOf;
    assert Sorted(ids)[j] in Elems(Sorted(ids));
    SortedDistinct(ids);
    IndexUnique(Sorted(ids), j);
  }

  lemma {:induction false} HopIsPosition(ids: set<Node>, i: nat, k: nat)
    requires i < |Sorted(ids)| && k <= |Sorted(ids)|
    ensures Sorted(ids)[i] in ids
    ensures Hop(ids, Sorted(ids)[i], k) == Sorted(ids)[Wrap(i + k, |Sorted(ids)|)]
  {
    hide Sorted, IndexOf, Successor, Wrap;
    var order := Sorted(ids);
    assert order[i] in Elems(order);
    if k > 0 {
      HopIsPosition(ids, i, k - 1);
      SuccessorAt(ids, Wrap(i + k - 1, |order|));
    }
  }

  /** Following successors from any node visits every node, and comes back after as many hops as
      there are nodes but no sooner. */
  lemma RingIsOneCycle(ids: set<Node>, start: Node, other: Node)
    requires start in ids && other in ids
    ensures exists k: nat :: k < |ids| && Hop(ids, start, k) == other
    ensures Hop(ids, start, |ids|) == start
    ensures forall k: nat :: 0 < k < |ids| ==> Hop(ids, start, k) != start
  {
    hide Sorted, IndexOf, Hop;
    var order := Sorted(ids);
    assert start in Elems(order) && other in Elems(order);
    SortedDistinct(ids);
    var i, j := IndexOf(order, start), IndexOf(order, other);
    var k: nat := if i <= j then j - i else j - i + |order|;
    HopIsPosition(ids, i, k);
    HopIsPosition(ids, i, |order|);
    forall k: nat | 0 < k < |ids|
      ensures Hop(ids, start, k) != start
    {
      HopIsPosition(ids, i, k);
      assert Wrap(i + k, |order|) != i;
    }
  }
}
