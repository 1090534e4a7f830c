/** The node order every process computes for itself by sorting its own id with its
    peers' ids, and what is derived from it: ring successors and circular committees. */
module Ordering {
  import opened Base

  predicate Ascending(s: seq<Node>) {
    forall i, j :: 0 <= i < j < |s| ==> s[i].rank < s[j].rank
  }

  function Elems<T>(s: seq<T>): set<T> {
    set x | x in s
  }

  predicate Distinct<T(==)>(s: seq<T>) {
    forall i, j :: 0 <= i < j < |s| ==> s[i] != s[j]
  }

  lemma ElemsEmpty<T>(s: seq<T>)
    ensures Elems(s) == {} <==> s == []
  {
    if s != [] {
      assert s[0] in Elems(s);
    }
  }

  lemma Prepend(m: Node, rest: seq<Node>)
    requires Ascending(rest) && forall x :: x in Elems(rest) ==> m.rank < x.rank
    ensures Ascending([m] + rest) && Elems([m] + rest) == {m} + Elems(rest)
  {
    assert forall i :: 0 <= i < |rest| ==> rest[i] in Elems(rest);
  }

  lemma {:induction false} DistinctSize<T>(s: seq<T>)
    requires Distinct(s)
    ensures |Elems(s)| == |s|
  {
    if s != [] {
      var k := |s| - 1;
      DistinctSize(s[..k]);
      assert Elems(s) == Elems(s[..k]) + {s[k]};
    }
  }

  predicate IsLeast(m: Node, ids: set<Node>) {
    m in ids && forall x :: x in ids ==> m.rank <= x.rank
  }

  lemma {:induction false} LeastExists(ids: set<Node>)
    requires ids != {}
    ensures exists m :: IsLeast(m, ids)
    decreases |ids|
  {
    var y :| y in ids;
    var rest := ids - {y};
    if rest == {} {
      assert ids == {y};
      assert IsLeast(y, ids);
    } else {
      LeastExists(rest);
      var m :| IsLeast(m, rest);
      assert IsLeast(if y.rank < m.rank then y else m, ids);
    }
  }

  lemma LeastIsStrict(m: Node, ids: set<Node>)
    requires IsLeast(m, ids)
    ensures forall x :: x in ids - {m} ==> m.rank < x.rank
  {
  }

  /** The ascending listing of a set of ids. */
  function Sorted(ids: set<Node>): (s: seq<Node>)
    ensures Ascending(s) && Elems(s) == ids && |s| == |ids|
    decreases |ids|
  {
    if ids == {} then []
    else
      LeastExists(ids);
      var m :| IsLeast(m, ids);
      var rest := Sorted(ids - {m});
      LeastIsStrict(m, ids);
      Prepend(m, rest);
      [m] + rest
  }

  /** There is only one ascending listing, so all nodes that know the same ids agree on it. */
  lemma {:induction false} SortedUnique(s: seq<Node>, t: seq<Node>)
    requires Ascending(s) && Ascending(t) && Elems(s) == Elems(t)
    ensures s == t
  {
    if s == [] {
      ElemsEmpty(t);
    } else {
      assert s[0] in Elems(s) && s[0] in Elems(t);
      assert t != [];
      assert t[0] in Elems(t) && t[0] in Elems(s);
      assert s[0] == t[0];
      assert Elems(s[1..]) == Elems(s) - {s[0]};
      assert Elems(t[1..]) == Elems(t) - {t[0]};
      SortedUnique(s[1..], t[1..]);
    }
  }

  /** Position of an id in the shared order. */
  function IndexOf(order: seq<Node>, id: Node): (i: nat)
    requires id in order
    ensures i < |order| && order[i] == id
  {
    if order[0] == id then 0 else 1 + IndexOf(order[1..], id)
  }

  lemma {:induction false} IndexUnique(order: seq<Node>, i: nat)
    requires Distinct(order) && i < |order|
    ensures IndexOf(order, order[i]) == i
  {
  }

  lemma SortedDistinct(ids: set<Node>)
    ensures Distinct(Sorted(ids))
  {
  }

  // ----- circular committees

  /** All ids in ring order, beginning after position |start| and ending with it. */
  function Rotation<T>(order: seq<T>, start: nat): seq<T>
    requires start < |order|
  {
    order[start + 1..] + order[..start + 1]
  }

  function Wrap(i: nat, n: nat): (r: nat)
    requires 0 < n
    ensures r < n
    ensures i < n ==> r == i
    ensures n <= i < 2 * n ==> r == i - n
  {
    i % n
  }

  /** The |count| ids that follow position |start|, going round. */
  function Circular(order: seq<Node>, start: nat, count: nat): set<Node>
    requires order != []
  {
    if count == 0 then {}
    else Circular(order, start, count - 1) + {order[Wrap(start + count, |order|)]}
  }

  /** Nobody is on the committee of a sender outside the membership. */
  function Committee(ids: set<Node>, sender: Node, count: nat): set<Node> {
    var order := Sorted(ids);
    if sender in order then Circular(order, IndexOf(order, sender), count) else {}
  }

  lemma RotationAt(order: seq<Node>, start: nat, i: nat)
    requires start < |order| && 1 <= i <= |order|
    ensures order[Wrap(start + i, |order|)] == Rotation(order, start)[i - 1]
  {
  }

  lemma RotationDistinct(order: seq<Node>, start: nat)
    requires start < |order| && Distinct(order)
    ensures Distinct(Rotation(order, start))
  {
    var r := Rotation(order, start);
    var cut := |order| - start - 1;
    forall i, j | 0 <= i < j < |r|
      ensures r[i] != r[j]
    {
      var a := if i < cut then i + start + 1 else i - cut;
      var b := if j < cut then j + start + 1 else j - cut;
      assert r[i] == order[a] && r[j] == order[b] && a != b;
    }
  }

  lemma {:induction false} CircularIsRotationPrefix(order: seq<Node>, start: nat, count: nat)
    requires start < |order| && count <= |order|
    ensures Circular(order, start, count) == Elems(Rotation(order, start)[..count])
  {
    var r := Rotation(order, start);
    if count == 0 {
    } else {
      CircularIsRotationPrefix(order, start, count - 1);
      RotationAt(order, start, count);
      assert r[..count] == r[..count - 1] + [r[count - 1]];
    }
  }

  lemma RotationElems<T>(order: seq<T>, start: nat)
    requires start < |order|
    ensures Elems(Rotation(order, start)) == Elems(order)
    ensures |Rotation(order, start)| == |order|
    ensures Rotation(order, start)[|order| - 1] == order[start]
  {
    assert order == order[..start + 1] + order[start + 1..];
  }

  /** What a prefix of a duplicate-free listing holds, and when it reaches the last entry. */
  lemma PrefixFacts(r: seq<Node>, count: nat)
    requires Distinct(r) && r != [] && count <= |r|
    ensures |Elems(r[..count])| == count
    ensures Elems(r[..count]) <= Elems(r)
    ensures r[|r| - 1] in Elems(r[..count]) <==> count == |r|
  {
    DistinctSize(r[..count]);
    if count == |r| {
      assert r[..count][count - 1] == r[|r| - 1];
    }
  }

  /** A committee has exactly the requested size, draws on the members only, and contains the
      sender precisely when it contains everybody. */
  lemma CommitteeSize(ids: set<Node>, sender: Node, count: nat)
    requires sender in ids && count <= |ids|
    ensures |Committee(ids, sender, count)| == count
    ensures Committee(ids, sender, count) <= ids
    ensures sender in Committee(ids, sender, count) <==> count == |ids|
  {
    hide Sorted, IndexOf, Circular, Rotation, Distinct, Ascending;
    var order := Sorted(ids);
    assert sender in Elems(order);
    var start := IndexOf(order, sender);
    SortedDistinct(ids);
    RotationDistinct(order, start);
    RotationElems(order, start);
    CircularIsRotationPrefix(order, start, count);
    PrefixFacts(Rotation(order, start), count);
  }

  // ----- who is on a committee, by rank alone

  /** The ids passed when going up from |s| to |p|, and round from the largest to the smallest. */
  function Between(ids: set<Node>, s: Node, p: Node): set<Node> {
    set x | x in ids && if s.rank < p.rank then s.rank < x.rank < p.rank else s.rank < x.rank || x.rank < p.rank
  }

  /** |who| are the |count| ids that come next after the sender's, going up and round. */
  ghost predicate AreNext(ids: set<Node>, sender: Node, count: nat, who: set<Node>) {
    forall p :: p in who <==> sender in ids && p in ids && |Between(ids, sender, p)| < count
  }

  lemma AscendingDistinct(order: seq<Node>)
    requires Ascending(order)
    ensures Distinct(order)
  {
  }

  lemma RotatedBetween(order: seq<Node>, start: nat, k: nat)
    requires Ascending(order) && start < |order| && k < |order|
    ensures Between(Elems(order), order[start], Rotation(order, start)[k]) == Elems(Rotation(order, start)[..k])
  {
    hide Rotation;
    RotationPlaces(order, start);
    var s, p := order[start], Rotation(order, start)[k];
    var cut := |order| - start - 1;
    forall x | x in Elems(order)
      ensures x in Between(Elems(order), s, p) <==> x in Elems(Rotation(order, start)[..k])
    {
      var i :| 0 <= i < |order| && order[i] == x;
      var at := if start < i then i - start - 1 else i + cut;
      assert Rotation(order, start)[at] == x;
      PlaceInPrefix(Rotation(order, start), at, k);
    }
    PrefixElems(order, start, k);
  }

  lemma RotationPlaces(order: seq<Node>, start: nat)
    requires Ascending(order) && start < |order|
    ensures var r, cut := Rotation(order, start), |order| - start - 1;
            && |r| == |order| && Distinct(r)
            && (forall i :: 0 <= i < cut ==> r[i] == order[start + 1 + i])
            && (forall i :: cut <= i < |order| ==> r[i] == order[i - cut])
            && (forall i :: start < i < |order| ==> r[i - start - 1] == order[i])
            && (forall i :: 0 <= i <= start ==> r[i + cut] == order[i])
  {
    AscendingDistinct(order);
    RotationDistinct(order, start);
  }

  lemma PlaceInPrefix(r: seq<Node>, at: nat, k: nat)
    requires Distinct(r) && at < |r| && k <= |r|
    ensures r[at] in Elems(r[..k]) <==> at < k
  {
    if at < k {
      assert r[..k][at] == r[at];
    }
  }

  lemma PrefixElems(order: seq<Node>, start: nat, k: nat)
    requires start < |order| && k <= |order|
    ensures Elems(Rotation(order, start)[..k]) <= Elems(order)
  {
    RotationElems(order, start);
  }

  /** Going round further than once adds nobody. */
  lemma {:induction false} CircularAll(order: seq<Node>, start: nat, count: nat)
    requires start < |order| && count >= |order|
    ensures Circular(order, start, count) == Elems(order)
  {
    if count == |order| {
      CircularIsRotationPrefix(order, start, count);
      RotationElems(order, start);
      assert Rotation(order, start)[..count] == Rotation(order, start);
    } else {
      CircularAll(order, start, count - 1);
    }
  }

  lemma CircularExactly(order: seq<Node>, start: nat, count: nat, p: Node)
    requires Ascending(order) && start < |order| && p in Elems(order)
    ensures |Between(Elems(order), order[start], p)| < |order|
    ensures p in Circular(order, start, count) <==> |Between(Elems(order), order[start], p)| < count
  {
    hide Circular, Rotation, Between, Wrap;
    var r := Rotation(order, start);
    RotationElems(order, start);
    RotationPlaces(order, start);
    var k :| 0 <= k < |r| && r[k] == p;
    RotatedBetween(order, start, k);
    DistinctSize(r[..k]);
    if count <= |order| {
      CircularIsRotationPrefix(order, start, count);
      PlaceInPrefix(r, k, count);
    } else {
      CircularAll(order, start, count);
    }
  }

  /** Exactly the |count| ids that come next after the sender's are on its committee: those that
      fewer than |count| ids lie before, going up from the sender and round. */
  lemma CommitteeExactly(ids: set<Node>, sender: Node, count: nat)
    ensures AreNext(ids, sender, count, Committee(ids, sender, count))
  {
    hide Sorted, IndexOf, Circular, Between;
    var order := Sorted(ids);
    forall p
      ensures p in Committee(ids, sender, count) <==>
                sender in ids && p in ids && |Between(ids, sender, p)| < count
    {
      assert sender in ids <==> sender in Elems(order);
      if sender in ids {
        if p in ids {
          CircularExactly(order, IndexOf(order, sender), count, p);
        } else {
          CircularMembers(order, IndexOf(order, sender), count);
        }
      }
    }
  }

  lemma {:induction false} CircularMembers(order: seq<Node>, start: nat, count: nat)
    requires order != []
    ensures Circular(order, start, count) <= Elems(order)
  {
    if count > 0 {
      CircularMembers(order, start, count - 1);
    }
  }

  /** The id after position |i|, going round, has no id in between. */
  lemma NextIsNext(order: seq<Node>, i: nat)
    requires Ascending(order) && i < |order|
    ensures Between(Elems(order), order[i], order[Wrap(i + 1, |order|)]) == {}
  {
    hide Rotation, Between;
    RotationAt(order, i, 1);
    RotatedBetween(order, i, 0);
    assert Rotation(order, i)[..0] == [];
  }
}
