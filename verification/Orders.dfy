/** Strict orders, the ascending listing of a set, and sorting: what iterating over an ordered
    container yields. */
module Orders {

  /** `less` is a strict total order. */
  ghost predicate Total<T(!new)>(less: (T, T) -> bool) {
    && (forall x :: !less(x, x))
    && (forall x, y :: less(x, y) || less(y, x) || x == y)
    && (forall x, y, z :: less(x, y) && less(y, z) ==> less(x, z))
  }

  ghost predicate Ascending<T>(l: seq<T>, less: (T, T) -> bool) {
    forall i, j :: 0 <= i < j < |l| ==> less(l[i], l[j])
  }

  ghost predicate IsFirst<T(!new)>(x: T, s: set<T>, less: (T, T) -> bool) {
    x in s && forall y :: y in s ==> y == x || less(x, y)
  }

  lemma {:induction false} FirstExists<T(!new)>(s: set<T>, less: (T, T) -> bool)
    requires Total(less) && s != {}
    ensures exists x :: IsFirst(x, s, less)
  {
    var z :| z in s;
    if s == {z} {
      assert IsFirst(z, s, less);
    } else {
      assert s - {z} != {};
      FirstExists(s - {z}, less);
      var x :| IsFirst(x, s - {z}, less);
      assert IsFirst(if less(x, z) then x else z, s, less);
    }
  }

  /** The members of a set in ascending order. */
  ghost function Listing<T(!new)>(s: set<T>, less: (T, T) -> bool): (l: seq<T>)
    requires Total(less)
    ensures Ascending(l, less)
    ensures forall x :: x in l <==> x in s
  {
    if s == {} then []
    else
      FirstExists(s, less);
      var x :| IsFirst(x, s, less);
      [x] + Listing(s - {x}, less)
  }

  lemma ListingFrom<T(!new)>(x: T, s: set<T>, less: (T, T) -> bool)
    requires Total(less) && IsFirst(x, s, less)
    ensures Listing(s, less) == [x] + Listing(s - {x}, less)
  {
  }

  /** Only one listing of a set is ascending. */
  lemma {:induction false} ListingUnique<T(!new)>(l: seq<T>, s: set<T>, less: (T, T) -> bool)
    requires Total(less) && Ascending(l, less) && forall x :: x in l <==> x in s
    ensures l == Listing(s, less)
  {
    if l == [] {
      assert s == {};
    } else {
      TailMembers(l, s, less);
      ListingFrom(l[0], s, less);
      assert Ascending(l[1..], less);
      ListingUnique(l[1..], s - {l[0]}, less);
    }
  }

  lemma TailMembers<T(!new)>(l: seq<T>, s: set<T>, less: (T, T) -> bool)
    requires Total(less) && Ascending(l, less) && l != [] && forall x :: x in l <==> x in s
    ensures IsFirst(l[0], s, less)
    ensures forall x :: x in l[1..] <==> x in s - {l[0]}
  {
    assert l == [l[0]] + l[1..];
    assert forall y :: y in l[1..] ==> less(l[0], y);
  }

  /** Where the iteration over an ordered container starts. */
  method First<T(!new, ==)>(s: set<T>, less: (T, T) -> bool) returns (x: T)
    requires Total(less) && s != {}
    ensures IsFirst(x, s, less)
  {
    x :| x in s;
    var rest := s - {x};
    while rest != {}
      invariant rest <= s && x in s - rest
      invariant forall y :: y in s - rest ==> y == x || less(x, y)
      decreases rest
    {
      var y :| y in rest;
      if less(y, x) {
        forall z | z in s - rest ensures less(y, z) {
          assert z == x || less(x, z);
        }
        x := y;
      }
      rest := rest - {y};
    }
  }

  // -------------------------------------------------------------------------------- sorting

  function Insert<T>(x: T, l: seq<T>, less: (T, T) -> bool): seq<T> {
    if l == [] || !less(l[0], x) then [x] + l else [l[0]] + Insert(x, l[1..], less)
  }

  function Sort<T>(l: seq<T>, less: (T, T) -> bool): seq<T> {
    if l == [] then [] else Insert(l[0], Sort(l[1..], less), less)
  }

  ghost predicate Sorted<T>(l: seq<T>, less: (T, T) -> bool) {
    forall i, j :: 0 <= i < j < |l| ==> !less(l[j], l[i])
  }

  lemma {:induction false} InsertCounts<T>(x: T, l: seq<T>, less: (T, T) -> bool)
    ensures multiset(Insert(x, l, less)) == multiset(l) + multiset{x}
  {
    if l != [] && less(l[0], x) {
      InsertCounts(x, l[1..], less);
      assert l == [l[0]] + l[1..];
    }
  }

  /** A list is sorted when its tail is and nothing in the tail is less than its head. */
  lemma SortedBy<T>(x: T, l: seq<T>, less: (T, T) -> bool)
    requires Sorted(l, less) && forall y :: y in multiset(l) ==> !less(y, x)
    ensures Sorted([x] + l, less)
  {
    assert forall y :: y in l ==> y in multiset(l);
  }

  lemma {:induction false} InsertSorts<T(!new)>(x: T, l: seq<T>, less: (T, T) -> bool)
    requires Total(less) && Sorted(l, less)
    ensures Sorted(Insert(x, l, less), less)
  {
    if l == [] || !less(l[0], x) {
      forall y | y in multiset(l) ensures !less(y, x) {
        assert y in l && !less(y, l[0]);
      }
      SortedBy(x, l, less);
    } else {
      InsertSorts(x, l[1..], less);
      InsertCounts(x, l[1..], less);
      forall y | y in multiset(Insert(x, l[1..], less)) ensures !less(y, l[0]) {
        assert y == x || y in l[1..];
      }
      SortedBy(l[0], Insert(x, l[1..], less), less);
    }
  }

  lemma {:induction false} SortSorts<T(!new)>(l: seq<T>, less: (T, T) -> bool)
    requires Total(less)
    ensures Sorted(Sort(l, less), less)
    ensures multiset(Sort(l, less)) == multiset(l)
  {
    if l != [] {
      SortSorts(l[1..], less);
      InsertSorts(l[0], Sort(l[1..], less), less);
      InsertCounts(l[0], Sort(l[1..], less), less);
      assert l == [l[0]] + l[1..];
    }
  }
}
