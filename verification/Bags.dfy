/** Weights of finite bags: the measures that show runs end. */
module Bags {

  ghost function Sum<T(!new)>(m: multiset<T>, w: T -> nat): nat
    decreases |m|
  {
    if m == multiset{} then 0
    else
      var x :| x in m;
      w(x) + Sum(m - multiset{x}, w)
  }

  /** The order of summation does not matter. */
  lemma {:induction false} SumRemove<T(!new)>(m: multiset<T>, w: T -> nat, x: T)
    requires x in m
    ensures Sum(m, w) == w(x) + Sum(m - multiset{x}, w)
    decreases |m|
  {
    var y :| y in m && Sum(m, w) == w(y) + Sum(m - multiset{y}, w);
    if y != x {
      SumRemove(m - multiset{y}, w, x);
      SumRemove(m - multiset{x}, w, y);
      assert m - multiset{y} - multiset{x} == m - multiset{x} - multiset{y};
    }
  }

  lemma SumInsert<T(!new)>(m: multiset<T>, w: T -> nat, x: T)
    ensures Sum(m + multiset{x}, w) == Sum(m, w) + w(x)
  {
    SumRemove(m + multiset{x}, w, x);
    assert m + multiset{x} - multiset{x} == m;
  }

  lemma {:induction false} SumUnion<T(!new)>(a: multiset<T>, b: multiset<T>, w: T -> nat)
    ensures Sum(a + b, w) == Sum(a, w) + Sum(b, w)
    decreases |b|
  {
    if b == multiset{} {
      assert a + b == a;
    } else {
      var x :| x in b;
      SumUnion(a, b - multiset{x}, w);
      SumRemove(b, w, x);
      SumInsert(a + (b - multiset{x}), w, x);
      assert a + (b - multiset{x}) + multiset{x} == a + b;
    }
  }

  lemma OneMore(n: nat, b: nat)
    requires n > 0
    ensures n * b == (n - 1) * b + b
  {
  }

  lemma MultisetWithout<T>(s: set<T>, x: T)
    requires x in s
    ensures multiset(s) - multiset{x} == multiset(s - {x})
  {
  }

  lemma {:induction false} SumBound<T(!new)>(s: set<T>, w: T -> nat, bound: nat)
    requires forall x :: x in s ==> w(x) <= bound
    ensures Sum(multiset(s), w) <= |s| * bound
    decreases |s|
  {
    if s == {} {
      assert multiset(s) == multiset{};
    } else {
      var x :| x in s;
      SumBound(s - {x}, w, bound);
      SumRemove(multiset(s), w, x);
      MultisetWithout(s, x);
      OneMore(|s|, bound);
    }
  }

  lemma {:induction false} SumSame<T(!new)>(m: multiset<T>, f: T -> nat, g: T -> nat)
    requires forall x :: x in m ==> f(x) == g(x)
    ensures Sum(m, f) == Sum(m, g)
    decreases |m|
  {
    if m != multiset{} {
      var x :| x in m;
      SumRemove(m, f, x);
      SumRemove(m, g, x);
      SumSame(m - multiset{x}, f, g);
    }
  }

  /** Two weights that differ in one place only. */
  lemma SumChange<T(!new)>(s: set<T>, f: T -> nat, g: T -> nat, x: T)
    requires x in s && forall y :: y in s && y != x ==> f(y) == g(y)
    ensures Sum(multiset(s), f) + g(x) == Sum(multiset(s), g) + f(x)
  {
    SumRemove(multiset(s), f, x);
    SumRemove(multiset(s), g, x);
    MultisetWithout(s, x);
    SumSame(multiset(s - {x}), f, g);
  }
}
