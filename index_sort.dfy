/** numpy's argsort on a list of scores, as both move-ordering loops use
    it: a list of indices that visits the scores in ascending order. The
    model sorts by insertion and keeps equal scores in index order; numpy's
    default sort does not promise any order among equal scores, so nothing
    proved elsewhere depends on the order of ties. */
module IndexSort {
  /** The indices 0 .. n-1 in increasing order. */
  function Iota(n: nat): (r: seq<nat>)
    ensures |r| == n && forall k :: 0 <= k < n ==> r[k] == k
  {
    if n == 0 then [] else Iota(n - 1) + [n - 1]
  }

  /** Every entry of `order` indexes a list of length n. */
  predicate InRange(order: seq<nat>, n: nat) {
    forall k :: 0 <= k < |order| ==> order[k] < n
  }

  /** `order` visits xs in ascending order of value. */
  predicate Ascending(xs: seq<real>, order: seq<nat>)
    requires InRange(order, |xs|)
  {
    forall j, k :: 0 <= j < k < |order| ==> xs[order[j]] <= xs[order[k]]
  }

  /** `order` lists each of 0 .. n-1 exactly once. */
  predicate IsPermutation(order: seq<nat>, n: nat) {
    multiset(order) == multiset(Iota(n))
  }

  /** Place index i into the ascending `order`, after the entries with a
      score no greater than xs[i]. */
  function Insert(xs: seq<real>, order: seq<nat>, i: nat): (r: seq<nat>)
    requires i < |xs| && InRange(order, |xs|)
    ensures |r| == |order| + 1 && InRange(r, |xs|)
    ensures multiset(r) == multiset(order) + multiset{i}
  {
    if order == [] then [i]
    else if xs[i] < xs[order[0]] then [i] + order
    else
      var rest := Insert(xs, order[1..], i);
      assert order == [order[0]] + order[1..];
      [order[0]] + rest
  }

  /** The indices 0 .. n-1 sorted by score. */
  function SortPrefix(xs: seq<real>, n: nat): (r: seq<nat>)
    requires n <= |xs|
    ensures |r| == n && InRange(r, |xs|) && IsPermutation(r, n)
  {
    if n == 0 then []
    else
      var r := Insert(xs, SortPrefix(xs, n - 1), n - 1);
      assert Iota(n) == Iota(n - 1) + [n - 1];
      r
  }

  /** np.argsort(xs). */
  function ArgSort(xs: seq<real>): (r: seq<nat>)
    ensures |r| == |xs| && InRange(r, |xs|)
  {
    SortPrefix(xs, |xs|)
  }

  /** Every score `order` visits is at least lo. */
  predicate AllAtLeast(xs: seq<real>, order: seq<nat>, lo: real)
    requires InRange(order, |xs|)
  {
    forall k :: 0 <= k < |order| ==> lo <= xs[order[k]]
  }

  lemma {:induction false} InsertAtLeast(xs: seq<real>, order: seq<nat>, i: nat, lo: real)
    requires i < |xs| && InRange(order, |xs|) && AllAtLeast(xs, order, lo) && lo <= xs[i]
    ensures AllAtLeast(xs, Insert(xs, order, i), lo)
    decreases |order|
  {
    if order != [] && xs[i] >= xs[order[0]] {
      InsertAtLeast(xs, order[1..], i, lo);
    }
  }

  lemma ConsAscending(xs: seq<real>, h: nat, rest: seq<nat>)
    requires h < |xs| && InRange(rest, |xs|) && AllAtLeast(xs, rest, xs[h]) && Ascending(xs, rest)
    ensures InRange([h] + rest, |xs|) && Ascending(xs, [h] + rest)
  {
    var r := [h] + rest;
    forall j, k | 0 <= j < k < |r|
      ensures xs[r[j]] <= xs[r[k]]
    {
      assert r[k] == rest[k - 1];
      if j > 0 {
        assert r[j] == rest[j - 1];
      }
    }
  }

  /** Inserting into an ascending order keeps it ascending. */
  lemma {:induction false} InsertAscending(xs: seq<real>, order: seq<nat>, i: nat)
    requires i < |xs| && InRange(order, |xs|) && Ascending(xs, order)
    ensures Ascending(xs, Insert(xs, order, i))
    decreases |order|
  {
    if order == [] {
    } else if xs[i] < xs[order[0]] {
      ConsAscending(xs, i, order);
    } else {
      var tail := order[1..];
      InsertAscending(xs, tail, i);
      InsertAtLeast(xs, tail, i, xs[order[0]]);
      ConsAscending(xs, order[0], Insert(xs, tail, i));
    }
  }

  lemma {:induction false} SortPrefixAscending(xs: seq<real>, n: nat)
    requires n <= |xs|
    ensures Ascending(xs, SortPrefix(xs, n))
  {
    var k := 0;
    while k < n
      invariant k <= n && Ascending(xs, SortPrefix(xs, k))
    {
      InsertAscending(xs, SortPrefix(xs, k), k);
      k := k + 1;
    }
  }

  /** argsort returns a permutation of the indices that visits the scores
      in ascending order. */
  lemma ArgSortSorts(xs: seq<real>)
    ensures IsPermutation(ArgSort(xs), |xs|) && Ascending(xs, ArgSort(xs))
  {
    SortPrefixAscending(xs, |xs|);
  }

  /** A permutation of 0 .. n-1 contains every index below n. */
  lemma PermutationCovers(order: seq<nat>, n: nat, i: nat)
    requires IsPermutation(order, n) && i < n
    ensures i in order
  {
    assert Iota(n)[i] == i;
    assert i in multiset(Iota(n));
  }

  /** The first index argsort returns holds a least score. */
  lemma ArgSortFirstIsLeast(xs: seq<real>)
    requires |xs| > 0
    ensures forall k :: 0 <= k < |xs| ==> xs[ArgSort(xs)[0]] <= xs[k]
  {
    ArgSortSorts(xs);
    var order := ArgSort(xs);
    forall k | 0 <= k < |xs|
      ensures xs[order[0]] <= xs[k]
    {
      PermutationCovers(order, |xs|, k);
      var t :| 0 <= t < |order| && order[t] == k;
      if t > 0 {
        assert xs[order[0]] <= xs[order[t]];
      }
    }
  }
}
