/** Positions in a sequence: picking elements by position (Swift's
    `indexes.map { xs[$0] }`) and finding the positions whose elements pass a test. */
module Sequences {

  /** Every position lies within a sequence of length `n`. */
  predicate InRange(indexes: seq<int>, n: int) {
    forall k :: 0 <= k < |indexes| ==> 0 <= indexes[k] < n
  }

  /** The elements of `all` at the given positions, in the order of the positions. */
  function Pick<T>(all: seq<T>, indexes: seq<int>): (r: seq<T>)
    requires InRange(indexes, |all|)
    ensures |r| == |indexes|
    decreases |indexes|
  {
    if |indexes| == 0 then []
    else Pick(all, indexes[..|indexes| - 1]) + [all[indexes[|indexes| - 1]]]
  }

  /** The k-th picked element is the element at the k-th position. */
  lemma {:induction false} PickAt<T>(all: seq<T>, indexes: seq<int>)
    requires InRange(indexes, |all|)
    ensures forall k :: 0 <= k < |indexes| ==> Pick(all, indexes)[k] == all[indexes[k]]
    decreases |indexes|
  {
    if |indexes| > 0 {
      PickAt(all, indexes[..|indexes| - 1]);
    }
  }

  /** Positions inside a prefix pick the same elements from the prefix. */
  lemma {:induction false} PickPrefix<T>(all: seq<T>, before: seq<int>)
    requires |all| > 0
    requires InRange(before, |all| - 1)
    ensures Pick(all, before) == Pick(all[..|all| - 1], before)
    decreases |before|
  {
    if |before| > 0 {
      PickPrefix(all, before[..|before| - 1]);
    }
  }

  /** Picking a prefix's positions and then the last one picks from the prefix,
      then the last element. */
  lemma PickSnoc<T>(all: seq<T>, before: seq<int>)
    requires |all| > 0
    requires InRange(before, |all| - 1)
    ensures InRange(before + [|all| - 1], |all|)
    ensures Pick(all, before + [|all| - 1]) == Pick(all[..|all| - 1], before) + [all[|all| - 1]]
  {
    var n := |all| - 1;
    var idx := before + [n];
    assert idx[..|idx| - 1] == before;
    PickPrefix(all, before);
  }

  /** The positions whose elements pass `test`, in increasing order, each once. */
  function Positions<T>(s: seq<T>, test: T -> bool): (idx: seq<int>)
    ensures InRange(idx, |s|)
    ensures forall k :: 0 <= k < |idx| ==> test(s[idx[k]])
    ensures forall k, l :: 0 <= k < l < |idx| ==> idx[k] < idx[l]
    ensures forall i :: 0 <= i < |s| && test(s[i]) ==> i in idx
    decreases |s|
  {
    if |s| == 0 then []
    else
      var n := |s| - 1;
      Positions(s[..n], test) + (if test(s[n]) then [n] else [])
  }
}
