/** Sorting a finite set into the one sequence that a strict total order allows.
    It stands for the `ORDER BY` clauses of the Hub's queries and for Go's
    `sort.Strings`; both are library code, so only their result is described. */
module Sorting {

  ghost predicate StrictOrder<T(!new)>(less: (T, T) -> bool) {
    && (forall x :: !less(x, x))
    && (forall x, y, z :: less(x, y) && less(y, z) ==> less(x, z))
  }

  /** `less` is a strict order that ranks any two members of `s`. */
  ghost predicate Orders<T(!new)>(less: (T, T) -> bool, s: set<T>) {
    && StrictOrder(less)
    && (forall x, y :: x in s && y in s && x != y ==> less(x, y) || less(y, x))
  }

  ghost predicate SortedBy<T>(less: (T, T) -> bool, q: seq<T>) {
    forall i, j :: 0 <= i < j < |q| ==> less(q[i], q[j])
  }

  ghost predicate IsLeast<T>(less: (T, T) -> bool, s: set<T>, m: T) {
    m in s && forall x :: x in s && x != m ==> less(m, x)
  }

  lemma {:induction false} LeastExists<T(!new)>(less: (T, T) -> bool, s: set<T>)
    requires Orders(less, s) && s != {}
    ensures exists m :: IsLeast(less, s, m)
  {
    var x :| x in s;
    if s == {x} {
      assert IsLeast(less, s, x);
    } else {
      assert s - {x} != {};
      LeastExists(less, s - {x});
      var m :| IsLeast(less, s - {x}, m);
      LeastOfMore(less, s, x, m);
    }
  }

  lemma LeastOfMore<T(!new)>(less: (T, T) -> bool, s: set<T>, x: T, m: T)
    requires Orders(less, s) && x in s && IsLeast(less, s - {x}, m)
    ensures IsLeast(less, s, if less(x, m) then x else m)
  {
    if less(x, m) {
      forall y | y in s && y != x
        ensures less(x, y)
      {
        assert y in s - {x};
        assert y == m || less(m, y);
      }
    } else {
      assert m in s && m != x && less(m, x);
      forall y | y in s && y != m
        ensures less(m, y)
      {
        assert y == x || y in s - {x};
      }
    }
  }

  ghost function Least<T(!new)>(less: (T, T) -> bool, s: set<T>): (m: T)
    requires Orders(less, s) && s != {}
    ensures IsLeast(less, s, m)
  {
    LeastExists(less, s);
    var m :| IsLeast(less, s, m);
    m
  }

  ghost function Sort<T(!new)>(less: (T, T) -> bool, s: set<T>): (q: seq<T>)
    requires Orders(less, s)
    ensures SortedBy(less, q) && |q| == |s| && forall x :: x in q <==> x in s
  {
    if s == {} then [] else
      var m := Least(less, s);
      [m] + Sort(less, s - {m})
  }

  lemma Inhabited<T>(q: seq<T>)
    ensures q == [] || exists x :: x in q
  {
    assert q == [] || q[0] in q;
  }

  /** The sorted sequence is unique: two sorted sequences with the same members are equal. */
  lemma {:induction false} SortedUnique<T(!new)>(less: (T, T) -> bool, a: seq<T>, b: seq<T>)
    requires StrictOrder(less) && SortedBy(less, a) && SortedBy(less, b)
    requires forall x :: x in a <==> x in b
    ensures a == b
  {
    if a == [] {
      Inhabited(b);
    } else {
      assert a[0] in b && b != [];
      assert b[0] in a;
      assert a[0] == b[0];
      forall x
        ensures x in a[1..] <==> x in b[1..]
      {
        assert x in a <==> x == a[0] || x in a[1..];
        assert x in b <==> x == b[0] || x in b[1..];
      }
      SortedUnique(less, a[1..], b[1..]);
      assert a == [a[0]] + a[1..] && b == [b[0]] + b[1..];
    }
  }

  lemma SortIs<T(!new)>(less: (T, T) -> bool, s: set<T>, q: seq<T>)
    requires Orders(less, s) && SortedBy(less, q) && forall x :: x in q <==> x in s
    ensures q == Sort(less, s)
  {
    SortedUnique(less, q, Sort(less, s));
  }

  // ----- The order of texts -----

  /** Byte order on texts, the order of Go's `sort.Strings`. */
  predicate Before(a: string, b: string) {
    b != [] && (a == [] || a[0] < b[0] || (a[0] == b[0] && Before(a[1..], b[1..])))
  }

  lemma BeforeIrreflexive(a: string)
    ensures !Before(a, a)
  {
  }

  lemma {:induction false} BeforeTransitive(a: string, b: string, c: string)
    requires Before(a, b) && Before(b, c)
    ensures Before(a, c)
  {
    if a == [] || a[0] != b[0] || b[0] != c[0] {
    } else {
      BeforeTransitive(a[1..], b[1..], c[1..]);
    }
  }

  lemma {:induction false} BeforeTotal(a: string, b: string)
    requires a != b
    ensures Before(a, b) || Before(b, a)
  {
    if a == [] || b == [] || a[0] != b[0] {
    } else {
      assert a == [a[0]] + a[1..] && b == [b[0]] + b[1..];
      BeforeTotal(a[1..], b[1..]);
    }
  }

  lemma BeforeOrders(s: set<string>)
    ensures Orders(Before, s)
  {
    forall x ensures !Before(x, x) { BeforeIrreflexive(x); }
    forall x, y, z | Before(x, y) && Before(y, z) ensures Before(x, z) { BeforeTransitive(x, y, z); }
    forall x, y | x in s && y in s && x != y ensures Before(x, y) || Before(y, x) { BeforeTotal(x, y); }
  }

  /** The result of `sort.Strings` on the keys of a map. */
  ghost function SortedTexts(s: set<string>): (q: seq<string>)
    ensures SortedBy(Before, q) && |q| == |s| && forall x :: x in q <==> x in s
  {
    BeforeOrders(s);
    Sort(Before, s)
  }

  function Members<T>(q: seq<T>): set<T> {
    set x | x in q
  }

  lemma MembersAppend<T>(q: seq<T>, x: T)
    ensures Members(q + [x]) == Members(q) + {x}
  {
    assert forall y :: y in q + [x] <==> y in q || y == x;
  }

  lemma MembersConcat<T>(p: seq<T>, q: seq<T>)
    ensures Members(p + q) == Members(p) + Members(q)
  {
    assert forall y :: y in p + q <==> y in p || y in q;
  }

  lemma SortedTextsIs(s: set<string>, q: seq<string>)
    requires SortedBy(Before, q) && Members(q) == s
    ensures q == SortedTexts(s)
  {
    BeforeOrders(s);
    assert forall x :: x in q <==> x in Members(q);
    SortIs(Before, s, q);
  }

  /** As many members as positions, if no two of them hold the same. */
  lemma {:induction false} DistinctSize<T>(q: seq<T>)
    requires forall i, j :: 0 <= i < j < |q| ==> q[i] != q[j]
    ensures |Members(q)| == |q|
  {
    if q == [] {
    } else {
      var k := |q| - 1;
      var init := q[..k];
      DistinctSize(init);
      MembersAppend(init, q[k]);
      assert q == init + [q[k]];
      NotMember(init, q[k]);
    }
  }

  lemma NotMember<T>(q: seq<T>, x: T)
    requires forall i :: 0 <= i < |q| ==> q[i] != x
    ensures x !in Members(q)
  {
  }
}
