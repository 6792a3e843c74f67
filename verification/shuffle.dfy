/**
 * The reshuffle's ordering step. Sorting a copy of the seed list with a
 * random comparator leaves the elements in some order that the model
 * cannot predict. Here that order is an explicit parameter: a permutation
 * of the positions `0 .. n-1`. Nothing is claimed about how likely each
 * order is.
 */
module Shuffle {

  /** `perm` lists each of the positions `0 .. n-1` exactly once. */
  predicate IsIndexPermutation(perm: seq<nat>, n: nat)
  {
    && |perm| == n
    && (forall i :: 0 <= i < |perm| ==> perm[i] < n)
    && (forall i, j :: 0 <= i < j < |perm| ==> perm[i] != perm[j])
  }

  /** The elements of `s` in the order `perm` gives: position `i` holds `s[perm[i]]`. */
  function Permute<T>(s: seq<T>, perm: seq<nat>): (r: seq<T>)
    requires IsIndexPermutation(perm, |s|)
    ensures |r| == |s|
    ensures multiset(r) == multiset(s)
  {
    PermuteMultiset(s, perm);
    Arrange(s, perm)
  }

  function Arrange<T>(s: seq<T>, perm: seq<nat>): (r: seq<T>)
    requires IsIndexPermutation(perm, |s|)
    ensures |r| == |s|
  {
    seq(|perm|, i requires 0 <= i < |perm| => s[perm[i]])
  }

  /**
   * The first `n - 1` entries of `perm` with the position `perm[n - 1]`
   * taken out of the numbering: entries above it move down by one.
   */
  function Renumber(perm: seq<nat>, n: nat): (perm': seq<nat>)
    requires 0 < n && IsIndexPermutation(perm, n)
    ensures IsIndexPermutation(perm', n - 1)
    ensures forall i :: 0 <= i < n - 1 ==>
      perm'[i] == if perm[i] > perm[n - 1] then perm[i] - 1 else perm[i]
  {
    var k := perm[n - 1];
    var perm': seq<nat> := seq(n - 1, i requires 0 <= i < n - 1 =>
      if perm[i] > k then perm[i] - 1 else perm[i]);
    forall i | 0 <= i < n - 1
      ensures perm'[i] < n - 1
    {
      assert perm[i] != perm[n - 1];
    }
    forall i, j | 0 <= i < j < n - 1
      ensures perm'[i] != perm'[j]
    {
      assert perm[i] != perm[n - 1] && perm[j] != perm[n - 1];
    }
    perm'
  }

  /** Arranging `s` without its element `s[perm[n - 1]]` by the renumbered order gives all but the last entry. */
  lemma ArrangeWithoutLast<T>(s: seq<T>, perm: seq<nat>)
    requires 0 < |s| && IsIndexPermutation(perm, |s|)
    ensures var n, k := |s|, perm[|s| - 1];
      Arrange(s, perm) == Arrange(s[..k] + s[k + 1..], Renumber(perm, n)) + [s[k]]
  {
    var n, k := |s|, perm[|s| - 1];
    var rest := s[..k] + s[k + 1..];
    var t := Arrange(s, perm);
    var u := Arrange(rest, Renumber(perm, n));
    assert forall i :: 0 <= i < n - 1 ==> u[i] == t[i];
    assert t == u + [s[k]];
  }

  /** Rearranging by a permutation of the positions keeps every element, as often as before. */
  lemma {:induction false} PermuteMultiset<T>(s: seq<T>, perm: seq<nat>)
    requires IsIndexPermutation(perm, |s|)
    ensures multiset(Arrange(s, perm)) == multiset(s)
    decreases |s|
  {
    var n := |s|;
    if n == 0 {
      return;
    }
    var k := perm[n - 1];
    var rest := s[..k] + s[k + 1..];
    PermuteMultiset(rest, Renumber(perm, n));
    ArrangeWithoutLast(s, perm);
    assert s == s[..k] + [s[k]] + s[k + 1..];
  }

  /** Rearranging keeps pairwise distinct elements pairwise distinct. */
  lemma PermuteDistinct<T>(s: seq<T>, perm: seq<nat>)
    requires IsIndexPermutation(perm, |s|)
    requires forall i, j :: 0 <= i < j < |s| ==> s[i] != s[j]
    ensures var r := Permute(s, perm);
      forall i, j :: 0 <= i < j < |r| ==> r[i] != r[j]
  {
    var r := Permute(s, perm);
    forall i, j | 0 <= i < j < |r|
      ensures r[i] != r[j]
    {
      assert r[i] == s[perm[i]] && r[j] == s[perm[j]];
      if perm[i] > perm[j] {
        assert s[perm[j]] != s[perm[i]];
      }
    }
  }
}
