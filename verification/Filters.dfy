/** Which items of a list a filter keeps, said by their positions; and lists made of segments. */
module Filters {

  /** `at` lists exactly the positions below `n` that satisfy `p`, in order. */
  ghost predicate Picks(at: seq<nat>, n: nat, p: nat -> bool) {
    && (forall k :: 0 <= k < |at| ==> at[k] < n && p(at[k]))
    && (forall j, k :: 0 <= j < k < |at| ==> at[j] < at[k])
    && (forall i: nat :: i < n && p(i) ==> i in at)
  }

  lemma PicksNone(p: nat -> bool)
    ensures Picks([], 0, p)
  {
  }

  lemma PicksNext(at: seq<nat>, n: nat, p: nat -> bool)
    requires Picks(at, n, p)
    ensures Picks(if p(n) then at + [n] else at, n + 1, p)
  {
    var next := if p(n) then at + [n] else at;
    forall i: nat | i < n + 1 && p(i)
      ensures i in next
    {
      if i < n {
        assert i in at;
      }
    }
  }

  /** One list only is that. */
  lemma {:induction false} PicksUnique(a: seq<nat>, b: seq<nat>, n: nat, p: nat -> bool)
    requires Picks(a, n, p) && Picks(b, n, p)
    ensures a == b
  {
    if n > 0 {
      Shorter(a, n, p);
      Shorter(b, n, p);
      PicksUnique(if p(n - 1) then a[..|a| - 1] else a, if p(n - 1) then b[..|b| - 1] else b, n - 1, p);
    }
  }

  lemma Shorter(a: seq<nat>, n: nat, p: nat -> bool)
    requires n > 0 && Picks(a, n, p)
    ensures p(n - 1) ==> a != [] && a[|a| - 1] == n - 1
    ensures Picks(if p(n - 1) then a[..|a| - 1] else a, n - 1, p)
  {
    if p(n - 1) {
      var k :| 0 <= k < |a| && a[k] == n - 1;
      assert a[|a| - 1] >= a[k];
    }
    var init := if p(n - 1) then a[..|a| - 1] else a;
    forall i: nat | i < n - 1 && p(i)
      ensures i in init
    {
      var k :| 0 <= k < |a| && a[k] == i;
      assert init[k] == i;
    }
  }

  lemma Snoc<T>(a: seq<T>, x: T, b: seq<T>, y: T)
    requires a + [x] == b + [y]
    ensures a == b && x == y
  {
    assert |a + [x]| == |b + [y]|;
    assert a == (a + [x])[..|a|] && b == (b + [y])[..|b|];
    assert (a + [x])[|a|] == x && (b + [y])[|b|] == y;
  }

  /** The segments one after the other. */
  function Flat<T>(segments: seq<seq<T>>): seq<T> {
    if segments == [] then [] else Flat(segments[..|segments| - 1]) + segments[|segments| - 1]
  }

  lemma FlatLast<T>(segments: seq<seq<T>>, last: seq<T>)
    ensures Flat(segments + [last]) == Flat(segments) + last
  {
    assert (segments + [last])[..|segments|] == segments;
  }

  /** Where the parts of a list stand in it. */
  lemma Parts<T>(all: seq<T>, head: T, middle: seq<T>, tail: seq<T>)
    requires all == [head] + (middle + tail)
    ensures |all| == 1 + |middle| + |tail| && all[0] == head
    ensures forall i :: 0 <= i < |middle| ==> all[1 + i] == middle[i]
    ensures forall i :: 0 <= i < |tail| ==> all[1 + |middle| + i] == tail[i]
  {
  }
}
