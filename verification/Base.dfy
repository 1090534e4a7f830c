/** Shared vocabulary: optional values and counting facts about finite sets. */
module Base {

  datatype Option<+T> = None | Some(value: T)

  /** A node identifier. The programs compare ids only by equality and by the order in which
      their strings sort; |rank| is the place in that order. */
  datatype Node = Node(rank: int)

  lemma SubsetSize<T>(a: set<T>, b: set<T>)
    requires a <= b
    ensures |a| <= |b|
  {
    assert b == a + (b - a);
  }

  lemma ProperSubsetSize<T>(a: set<T>, b: set<T>, x: T)
    requires a <= b && x in b && x !in a
    ensures |a| < |b|
  {
    SubsetSize(a, b - {x});
  }

  /** Two subsets of one universe overlap in at least as many elements as they overfill it by. */
  lemma Overlap<T>(a: set<T>, b: set<T>, u: set<T>)
    requires a <= u && b <= u
    ensures |a * b| + |u| >= |a| + |b|
  {
    SubsetSize(a + b, u);
  }

  /** What survives after at most |cut| elements are taken away. */
  lemma SurvivorSize<T>(a: set<T>, cut: set<T>)
    ensures |a - cut| + |cut| >= |a|
  {
    SubsetSize(a * cut, cut);
    assert a == (a - cut) + (a * cut);
  }
}
