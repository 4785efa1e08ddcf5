/** Finite sets of numbers listed in ascending order. */
module Order {
  predicate IsLeast(s: set<nat>, m: nat) { m in s && forall i :: i in s ==> m <= i }

  lemma {:induction false} LeastExists(s: set<nat>)
    requires s != {}
    ensures exists m :: m in s && IsLeast(s, m)
    decreases |s|
  {
    var x :| x in s;
    assert s == {x} + (s - {x});
    if s - {x} == {} {
      assert IsLeast(s, x);
    } else {
      LeastExists(s - {x});
      var n :| n in s - {x} && IsLeast(s - {x}, n);
      assert IsLeast(s, if x < n then x else n);
    }
  }

  predicate Ascending(o: seq<nat>) { forall i, j :: 0 <= i < j < |o| ==> o[i] < o[j] }

  predicate Distinct(o: seq<nat>) { forall i, j :: 0 <= i < j < |o| ==> o[i] != o[j] }

  /** The elements of the set from the least to the greatest. */
  function Sorted(s: set<nat>): (r: seq<nat>)
    ensures |r| == |s| && forall k :: k in r <==> k in s
    decreases |s|
  {
    if s == {} then [] else
      LeastExists(s);
      var m :| m in s && IsLeast(s, m);
      [m] + Sorted(s - {m})
  }

  lemma {:induction false} SortedAscends(s: set<nat>)
    ensures Ascending(Sorted(s)) && Distinct(Sorted(s))
    decreases |s|
  {
    if s != {} {
      LeastExists(s);
      var m :| m in s && IsLeast(s, m);
      SortedAscends(s - {m});
      Prepend(m, Sorted(s - {m}));
    }
  }

  lemma {:induction false} Prepend(m: nat, o: seq<nat>)
    requires Ascending(o) && forall k :: k in o ==> m < k
    ensures Ascending([m] + o) && Distinct([m] + o)
  {
    forall i, j | 0 <= i < j < |[m] + o| ensures ([m] + o)[i] < ([m] + o)[j] {
      assert ([m] + o)[j] == o[j - 1] && o[j - 1] in o;
    }
  }

  lemma {:induction false} SubsetCount<T>(a: set<T>, b: set<T>)
    requires a <= b
    ensures |a| <= |b|
    decreases |a|
  {
    if a != {} {
      var x :| x in a;
      SubsetCount(a - {x}, b - {x});
    }
  }

  /** There is always a number that is not taken. */
  lemma FreshName(names: set<nat>)
    returns (m: nat)
    ensures m !in names
  {
    m := 0;
    var seen: set<nat> := {};
    while m in names
      invariant seen <= names && (forall k :: k in seen <==> 0 <= k < m)
      decreases names - seen
    {
      seen := seen + {m};
      m := m + 1;
    }
  }
}
