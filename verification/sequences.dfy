/**
 * The two array primitives the course-structure editor leans on:
 * `Array.prototype.findIndex` (as IndexOf over a sequence of keys) and
 * the `arrayMove` helper of the drag-and-drop library.
 */
module Sequences {

  /** The first index of `ids` holding `x`, or -1 when there is none (findIndex on an id). */
  function IndexOf(s: seq<string>, x: string): (r: int)
    ensures -1 <= r < |s|
    ensures r == -1 <==> x !in s
    ensures 0 <= r ==> s[r] == x && forall j :: 0 <= j < r ==> s[j] != x
  {
    if |s| == 0 then -1
    else if s[0] == x then 0
    else
      var t := IndexOf(s[1..], x);
      if t == -1 then -1 else t + 1
  }

  /** Applies `f` to every element, keeping the order (Array.prototype.map). */
  function Map<T, U>(f: T -> U, s: seq<T>): (r: seq<U>)
    ensures |r| == |s|
    ensures forall k :: 0 <= k < |s| ==> r[k] == f(s[k])
  {
    seq(|s|, k requires 0 <= k < |s| => f(s[k]))
  }

  /**
   * arrayMove(array, from, to): take the element at `from` out, then insert
   * it at index `to` of what is left. Indices come from findIndex results
   * that were checked against -1, so both are in range.
   */
  function ArrayMove<T>(s: seq<T>, from: nat, to: nat): (r: seq<T>)
    requires from < |s| && to < |s|
    ensures |r| == |s|
    ensures r[to] == s[from]
  {
    var rest := s[..from] + s[from + 1..];
    rest[..to] + [s[from]] + rest[to..]
  }

  /** The index of the original sequence whose element ArrayMove(_, from, to) puts at `k`. */
  function MovedFrom(from: nat, to: nat, k: nat): nat {
    if k == to then from
    else if from <= k < to then k + 1
    else if to < k <= from then k - 1
    else k
  }

  /** ArrayMove element by element: the moved element lands at `to`, those in between shift by one, the rest stay. */
  lemma ArrayMoveAt<T>(s: seq<T>, from: nat, to: nat, k: nat)
    requires from < |s| && to < |s| && k < |s|
    ensures MovedFrom(from, to, k) < |s|
    ensures ArrayMove(s, from, to)[k] == s[MovedFrom(from, to, k)]
  {
  }

  /** Every element is somewhere in the result: moving back from `to` to `from` undoes a move. */
  lemma ArrayMoveUndo<T>(s: seq<T>, from: nat, to: nat)
    requires from < |s| && to < |s|
    ensures ArrayMove(ArrayMove(s, from, to), to, from) == s
  {
    var moved := ArrayMove(s, from, to);
    var back := ArrayMove(moved, to, from);
    forall k | 0 <= k < |s|
      ensures back[k] == s[k]
    {
      ArrayMoveAt(moved, to, from, k);
      ArrayMoveAt(s, from, to, MovedFrom(to, from, k));
    }
  }

  /** Moving an element onto its own index changes nothing. */
  lemma ArrayMoveSameIndex<T>(s: seq<T>, i: nat)
    requires i < |s|
    ensures ArrayMove(s, i, i) == s
  {
  }

  /** ArrayMove is a permutation: it neither loses nor duplicates elements. */
  lemma ArrayMovePermutes<T>(s: seq<T>, from: nat, to: nat)
    requires from < |s| && to < |s|
    ensures multiset(ArrayMove(s, from, to)) == multiset(s)
  {
    var x := s[from];
    var rest := s[..from] + s[from + 1..];
    assert s == s[..from] + [x] + s[from + 1..];
    assert rest == rest[..to] + rest[to..];
    assert ArrayMove(s, from, to) == rest[..to] + [x] + rest[to..];
    assert multiset(ArrayMove(s, from, to)) == multiset(rest) + multiset{x};
  }

  /** Projecting every element (to its id, say) commutes with ArrayMove. */
  lemma MapArrayMove<T, U>(f: T -> U, s: seq<T>, from: nat, to: nat)
    requires from < |s| && to < |s|
    ensures Map(f, ArrayMove(s, from, to)) == ArrayMove(Map(f, s), from, to)
  {
    forall k | 0 <= k < |s|
      ensures Map(f, ArrayMove(s, from, to))[k] == ArrayMove(Map(f, s), from, to)[k]
    {
      ArrayMoveAt(s, from, to, k);
      ArrayMoveAt(Map(f, s), from, to, k);
    }
  }
}
