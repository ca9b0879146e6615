/** The order in which concurrently issued calls complete. The model does
    not schedule anything: an order is given as a permutation of the call
    indices, and every property is proved for all of them. */
module Completion {

  /** `order` lists every index below `n` exactly once. */
  predicate IsOrder(order: seq<nat>, n: nat) {
    && |order| == n
    && (forall i :: 0 <= i < n ==> order[i] < n)
    && (forall i, j :: 0 <= i < j < n ==> order[i] != order[j])
    && (forall k :: 0 <= k < n ==> Listed(order, k))
  }

  predicate Listed(order: seq<nat>, k: nat) {
    exists i :: 0 <= i < |order| && order[i] == k
  }

  /** The elements of `xs` in the order `order` lists their indices. */
  function Permute<T>(xs: seq<T>, order: seq<nat>): (r: seq<T>)
    requires forall i :: 0 <= i < |order| ==> order[i] < |xs|
    ensures |r| == |order|
    ensures forall i :: 0 <= i < |order| ==> r[i] == xs[order[i]]
  {
    seq(|order|, i requires 0 <= i < |order| => xs[order[i]])
  }

  /** Taking elements in a completion order loses and duplicates nothing:
      the result is a permutation of the elements. */
  lemma {:induction false} PermuteMultiset<T>(xs: seq<T>, order: seq<nat>)
    requires IsOrder(order, |xs|)
    ensures multiset(Permute(xs, order)) == multiset(xs)
    decreases |xs|
  {
    var n := |xs|;
    if n > 0 {
      assert Listed(order, n - 1);
      var p :| 0 <= p < n && order[p] == n - 1;
      var order' := order[..p] + order[p + 1..];
      DropLast(order, p);
      var init := xs[..n - 1];
      PermuteMultiset(init, order');
      PermuteInsert(xs, order, p);
      var a := Permute(init, order');
      Reassemble(Permute(xs, order), a, xs, p);
    }
  }

  /** `r` is `a` with the last element of `xs` inserted at `p`, and `a` is a
      permutation of the rest of `xs`: then `r` is a permutation of `xs`. */
  lemma Reassemble<T>(r: seq<T>, a: seq<T>, xs: seq<T>, p: nat)
    requires |xs| > 0 && p <= |a|
    requires multiset(a) == multiset(xs[..|xs| - 1])
    requires r == a[..p] + [xs[|xs| - 1]] + a[p..]
    ensures multiset(r) == multiset(xs)
  {
    InsertMultiset(a, p, xs[|xs| - 1]);
    assert xs == xs[..|xs| - 1] + [xs[|xs| - 1]];
  }

  /** The permutation of `xs` is that of its initial part with the last
      element put back where the order lists it. */
  lemma PermuteInsert<T>(xs: seq<T>, order: seq<nat>, p: nat)
    requires |xs| > 0 && IsOrder(order, |xs|) && p < |xs| && order[p] == |xs| - 1
    requires IsOrder(order[..p] + order[p + 1..], |xs| - 1)
    ensures var a := Permute(xs[..|xs| - 1], order[..p] + order[p + 1..]);
            p <= |a| && Permute(xs, order) == a[..p] + [xs[|xs| - 1]] + a[p..]
  {
    var n := |xs|;
    var order' := order[..p] + order[p + 1..];
    var a := Permute(xs[..n - 1], order');
    var r := Permute(xs, order);
    var q := a[..p] + [xs[n - 1]] + a[p..];
    forall i | 0 <= i < n ensures r[i] == q[i] {
      if i < p {
        assert order'[i] == order[i];
      } else if i > p {
        assert order'[i - 1] == order[i];
      }
    }
  }

  /** Inserting an element adds it to the multiset. */
  lemma InsertMultiset<T>(a: seq<T>, p: nat, x: T)
    requires p <= |a|
    ensures multiset(a[..p] + [x] + a[p..]) == multiset(a) + multiset{x}
  {
    assert a == a[..p] + a[p..];
  }

  /** Removing the position holding the largest index leaves a completion
      order of one call fewer. */
  lemma DropLast(order: seq<nat>, p: nat)
    requires |order| > 0 && IsOrder(order, |order|) && p < |order| && order[p] == |order| - 1
    ensures IsOrder(order[..p] + order[p + 1..], |order| - 1)
  {
    var n := |order|;
    var o := order[..p] + order[p + 1..];
    assert forall i :: 0 <= i < n - 1 ==> o[i] == order[if i < p then i else i + 1];
    forall k | 0 <= k < n - 1 ensures Listed(o, k) {
      assert Listed(order, k);
      var i :| 0 <= i < n && order[i] == k;
      assert i != p;
      if i < p {
        assert o[i] == k;
      } else {
        assert o[i - 1] == k;
      }
    }
  }
}
