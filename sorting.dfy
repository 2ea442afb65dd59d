/**
  Ascending sort of cost values, as done in place by `costs.sort_by(compare_floats)`
  in the epsilon estimator of the cluster ruin strategy.
*/
module Sorting {

  /** Ascending (non-decreasing) order. */
  predicate Sorted(s: seq<real>)
  {
    forall i, j :: 0 <= i < j < |s| ==> s[i] <= s[j]
  }

  /** Inserts `x` into the sorted sequence `s`, before the first element not smaller than it. */
  function Insert(x: real, s: seq<real>): (r: seq<real>)
    requires Sorted(s)
    ensures Sorted(r)
    ensures |r| == |s| + 1
    ensures multiset(r) == multiset(s) + multiset{x}
    ensures r[0] == x || (s != [] && r[0] == s[0])
  {
    if s == [] || x <= s[0] then
      [x] + s
    else
      assert s == [s[0]] + s[1..];
      [s[0]] + Insert(x, s[1..])
  }

  /**
    The reference definition of the sorted order: the sorted permutation of `s`.
    By SortedPermutationUnique it is the only one, so any correct sort yields it.
  */
  function Sort(s: seq<real>): (r: seq<real>)
    ensures Sorted(r)
    ensures |r| == |s|
    ensures multiset(r) == multiset(s)
  {
    if s == [] then
      []
    else
      assert s == [s[0]] + s[1..];
      Insert(s[0], Sort(s[1..]))
  }

  /** The head of a sorted sequence is not larger than any of its elements. */
  lemma HeadIsLeast(t: seq<real>, y: real)
    requires Sorted(t) && y in t
    ensures t[0] <= y
  {
  }

  /** Two sorted arrangements of the same multiset of values are the same sequence. */
  lemma {:induction false} SortedPermutationUnique(s: seq<real>, t: seq<real>)
    requires Sorted(s) && Sorted(t)
    requires multiset(s) == multiset(t)
    ensures s == t
  {
    if s == [] {
      assert |t| == |multiset(t)| == 0;
    } else {
      assert |t| == |multiset(t)| == |s|;
      assert s[0] in multiset(s);
      assert s[0] in t;
      assert t[0] in multiset(t);
      assert t[0] in s;
      HeadIsLeast(t, s[0]);
      HeadIsLeast(s, t[0]);
      assert s[0] == t[0];
      assert s == [s[0]] + s[1..];
      assert t == [t[0]] + t[1..];
      assert multiset(s) == multiset{s[0]} + multiset(s[1..]);
      assert multiset(t) == multiset{t[0]} + multiset(t[1..]);
      forall y ensures multiset(s[1..])[y] == multiset(t[1..])[y] {
        assert multiset(s)[y] == multiset{s[0]}[y] + multiset(s[1..])[y];
        assert multiset(t)[y] == multiset{t[0]}[y] + multiset(t[1..])[y];
      }
      assert multiset(s[1..]) == multiset(t[1..]);
      SortedPermutationUnique(s[1..], t[1..]);
    }
  }

  /** Exchanges `a[j - 1]` and `a[j]`; every other element stays where it is. */
  method SwapAdjacent(a: array<real>, j: nat)
    requires 0 < j < a.Length
    modifies a
    ensures a[j - 1] == old(a[j]) && a[j] == old(a[j - 1])
    ensures forall k :: 0 <= k < a.Length && k != j - 1 && k != j ==> a[k] == old(a[k])
    ensures multiset(a[..]) == multiset(old(a[..]))
  {
    a[j - 1], a[j] := a[j], a[j - 1];
  }

  /**
    Moves `a[i]` left past every larger element of the sorted prefix `a[..i]`, by adjacent
    swaps, so that `a[..i + 1]` is sorted; the elements after `i` stay where they are.
  */
  method InsertIntoPrefix(a: array<real>, i: nat)
    requires i < a.Length
    requires forall k, l :: 0 <= k < l < i ==> a[k] <= a[l]
    modifies a
    ensures forall k, l :: 0 <= k < l <= i ==> a[k] <= a[l]
    ensures multiset(a[..]) == multiset(old(a[..]))
    ensures forall k :: i < k < a.Length ==> a[k] == old(a[k])
  {
    var j := i;
    while j > 0 && a[j - 1] > a[j]
      invariant 0 <= j <= i
      invariant forall k, l :: 0 <= k < l <= i && k != j && l != j ==> a[k] <= a[l]
      invariant forall l :: j < l <= i ==> a[j] <= a[l]
      invariant multiset(a[..]) == multiset(old(a[..]))
      invariant forall k :: i < k < a.Length ==> a[k] == old(a[k])
    {
      SwapAdjacent(a, j);
      j := j - 1;
    }
  }

  /** Sorts `a` in place (insertion sort); the result is `Sort` of the old contents. */
  method SortInPlace(a: array<real>)
    modifies a
    ensures Sorted(a[..])
    ensures multiset(a[..]) == multiset(old(a[..]))
    ensures a[..] == Sort(old(a[..]))
  {
    var i := 0;
    while i < a.Length
      invariant 0 <= i <= a.Length
      invariant forall k, l :: 0 <= k < l < i ==> a[k] <= a[l]
      invariant multiset(a[..]) == multiset(old(a[..]))
    {
      InsertIntoPrefix(a, i);
      i := i + 1;
    }
    SortedPermutationUnique(a[..], Sort(old(a[..])));
  }
}
