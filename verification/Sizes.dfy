/** Sizes of finite sets. */
module Sizes {

  lemma SizeOfSubset<T>(small: set<T>, large: set<T>)
    requires small <= large
    ensures |small| <= |large|
  {
    assert large == small + (large - small);
  }

  lemma SizeOfUnion<T>(all: set<T>, a: set<T>, b: set<T>)
    requires all <= a + b
    ensures |all| <= |a| + |b|
  {
    SizeOfSubset(all, a + b);
    assert a + b == a + (b - a);
    SizeOfSubset(b - a, b);
  }
}
