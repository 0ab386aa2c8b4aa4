/** `arrayMove(array, from, to)` of the sortable drag-and-drop library: a copy of the array with
    the element at `from` taken out and put back at `to`. */
module Sortable {
  import opened Seqs

  function ArrayMove<T>(s: seq<T>, from: nat, to: nat): (r: seq<T>)
    requires from < |s| && to < |s|
    ensures |r| == |s|
  {
    InsertAt(Remove(s, from), to, s[from])
  }

  /** The moved element lands at `to`, and taking it out again leaves every other element in its
      original relative order. */
  lemma ArrayMoveSpec<T>(s: seq<T>, from: nat, to: nat)
    requires from < |s| && to < |s|
    ensures ArrayMove(s, from, to)[to] == s[from]
    ensures Remove(ArrayMove(s, from, to), to) == Remove(s, from)
  {
    RemoveInserted(Remove(s, from), to, s[from]);
  }

  /** A move is a permutation. */
  lemma ArrayMovePermutation<T>(s: seq<T>, from: nat, to: nat)
    requires from < |s| && to < |s|
    ensures multiset(ArrayMove(s, from, to)) == multiset(s)
  {
    RemoveMultiset(s, from);
    InsertMultiset(Remove(s, from), to, s[from]);
  }

  /** Moving back from `to` to `from` restores the original. */
  lemma ArrayMoveInverse<T>(s: seq<T>, from: nat, to: nat)
    requires from < |s| && to < |s|
    ensures ArrayMove(ArrayMove(s, from, to), to, from) == s
  {
    var m := ArrayMove(s, from, to);
    ArrayMoveSpec(s, from, to);
    InsertRemoved(s, from);
  }

  /** A move onto itself changes nothing. */
  lemma ArrayMoveSame<T>(s: seq<T>, i: nat)
    requires i < |s|
    ensures ArrayMove(s, i, i) == s
  {
    InsertRemoved(s, i);
  }
}
