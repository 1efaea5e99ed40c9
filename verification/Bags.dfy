/** Lists of cpus, and the bag of all cpus that a tiered table of lists holds. */
module Bags {

  /** `n` copies of `x`: what inserting a count of one value adds to a list. */
  function Copies<T>(n: nat, x: T): (s: seq<T>)
    ensures |s| == n && forall i :: 0 <= i < n ==> s[i] == x
  {
    seq(n, _ => x)
  }

  /** The list without any occurrence of `x`. */
  function Without<T(==)>(s: seq<T>, x: T): seq<T> {
    if s == [] then []
    else if s[0] == x then Without(s[1..], x)
    else [s[0]] + Without(s[1..], x)
  }

  lemma {:induction false} WithoutCounts<T>(s: seq<T>, x: T)
    ensures multiset(Without(s, x)) == multiset(s)[x := 0]
    ensures |s| - |Without(s, x)| == multiset(s)[x]
  {
    if s != [] {
      WithoutCounts(s[1..], x);
      assert s == [s[0]] + s[1..];
    }
  }

  lemma WithoutMembers<T(!new)>(s: seq<T>, x: T)
    ensures forall y :: y in Without(s, x) <==> y in s && y != x
  {
    WithoutCounts(s, x);
    assert forall y :: y in Without(s, x) <==> y in multiset(Without(s, x));
    assert forall y :: y in s <==> y in multiset(s);
  }

  lemma {:induction false} CopiesCount<T>(n: nat, x: T)
    ensures multiset(Copies(n, x)) == multiset{}[x := n]
  {
    if n == 0 {
      assert Copies(n, x) == [];
    } else {
      CopiesCount(n - 1, x);
      assert Copies(n, x) == Copies(n - 1, x) + [x];
    }
  }

  lemma SomeMember(s: set<int>)
    ensures s == {} || exists x :: x in s
  {
    if !exists x :: x in s {
      assert s == {};
    }
  }

  /** All cpus of a tiered table, whatever tier they are in. */
  ghost function Bag<T>(tiers: map<int, seq<T>>): multiset<T>
    decreases |tiers|
  {
    if exists t :: t in tiers then
      var t :| t in tiers;
      assert |tiers - {t}| < |tiers| by { Smaller(tiers, t); }
      multiset(tiers[t]) + Bag(tiers - {t})
    else multiset{}
  }

  lemma Smaller<T>(tiers: map<int, seq<T>>, t: int)
    requires t in tiers
    ensures |tiers - {t}| < |tiers|
  {
    assert (tiers - {t}).Keys == tiers.Keys - {t};
    assert |(tiers - {t}).Keys| == |tiers - {t}| && |tiers.Keys| == |tiers|;
  }

  /** The bag does not depend on the order in which the tiers are visited. */
  lemma {:induction false} BagSplit<T>(tiers: map<int, seq<T>>, t: int)
    requires t in tiers
    ensures Bag(tiers) == multiset(tiers[t]) + Bag(tiers - {t})
    decreases |tiers|
  {
    var u :| u in tiers && Bag(tiers) == multiset(tiers[u]) + Bag(tiers - {u});
    if u != t {
      Smaller(tiers, u);
      Smaller(tiers, t);
      BagSplit(tiers - {u}, t);
      BagSplit(tiers - {t}, u);
      assert tiers - {u} - {t} == tiers - {t} - {u};
    }
  }

  /** Replacing one tier's list exchanges exactly that list's cpus. */
  lemma BagPut<T>(tiers: map<int, seq<T>>, t: int, s: seq<T>)
    ensures t in tiers ==> multiset(tiers[t]) <= Bag(tiers)
    ensures Bag(tiers[t := s])
         == Bag(tiers) - (if t in tiers then multiset(tiers[t]) else multiset{}) + multiset(s)
  {
    BagSplit(tiers[t := s], t);
    if t in tiers {
      BagSplit(tiers, t);
      assert tiers[t := s] - {t} == tiers - {t};
    } else {
      assert tiers[t := s] - {t} == tiers;
    }
  }

  /** A value found in no tier but `t` occurs in the bag as often as in that tier. */
  lemma {:induction false} BagOnly<T>(tiers: map<int, seq<T>>, t: int, x: T)
    requires forall u :: u in tiers && u != t ==> x !in tiers[u]
    ensures Bag(tiers)[x] == if t in tiers then multiset(tiers[t])[x] else 0
    decreases |tiers|
  {
    if u :| u in tiers {
      BagSplit(tiers, u);
      Smaller(tiers, u);
      BagOnly(tiers - {u}, t, x);
    }
  }

  lemma {:induction false} BagMember<T>(tiers: map<int, seq<T>>, x: T)
    ensures x in Bag(tiers) <==> exists t :: t in tiers && x in tiers[t]
    decreases |tiers|
  {
    if u :| u in tiers {
      BagSplit(tiers, u);
      Smaller(tiers, u);
      BagMember(tiers - {u}, x);
      assert forall t :: t in tiers - {u} ==> t in tiers && (tiers - {u})[t] == tiers[t];
      if t :| t in tiers && x in tiers[t] {
        if t != u { assert t in tiers - {u}; }
      }
    }
  }
}
