/** Generic list operations that the JavaScript code takes from `Array.prototype`:
    `filter`, `findIndex`, and the two halves of `splice` (remove one element, insert one element). */
module Seqs {

  /** `s.filter(p)`: the elements of `s` that satisfy `p`, in their original order. */
  function Filter<T>(s: seq<T>, p: T -> bool): (r: seq<T>)
    ensures |r| <= |s|
    ensures forall i :: 0 <= i < |r| ==> p(r[i])
    decreases |s|
  {
    if s == [] then []
    else if p(s[0]) then [s[0]] + Filter(s[1..], p)
    else Filter(s[1..], p)
  }

  /** The filtered list holds exactly the elements of the original that pass. */
  lemma {:induction false} FilterMembers<T>(s: seq<T>, p: T -> bool)
    ensures forall x :: x in Filter(s, p) <==> x in s && p(x)
    decreases |s|
  {
    if s != [] {
      FilterMembers(s[1..], p);
      assert s == [s[0]] + s[1..];
    }
  }

  /** Filtering distributes over concatenation. */
  lemma {:induction false} FilterAppend<T>(a: seq<T>, b: seq<T>, p: T -> bool)
    ensures Filter(a + b, p) == Filter(a, p) + Filter(b, p)
    decreases |a|
  {
    if a == [] {
      assert a + b == b;
    } else {
      assert (a + b)[0] == a[0];
      assert (a + b)[1..] == a[1..] + b;
      FilterAppend(a[1..], b, p);
      if p(a[0]) {
        calc {
          Filter(a + b, p);
          [a[0]] + Filter(a[1..] + b, p);
          [a[0]] + (Filter(a[1..], p) + Filter(b, p));
          ([a[0]] + Filter(a[1..], p)) + Filter(b, p);
        }
      }
    }
  }

  /** An element occurs in the filtered list as often as in the original if it passes, else never. */
  lemma {:induction false} FilterCount<T>(s: seq<T>, p: T -> bool, x: T)
    ensures multiset(Filter(s, p))[x] == if p(x) then multiset(s)[x] else 0
    decreases |s|
  {
    if s != [] {
      assert s == [s[0]] + s[1..];
      FilterCount(s[1..], p, x);
    }
  }

  /** Filtering two permutations of each other gives two permutations of each other. */
  lemma FilterPermutation<T(!new)>(a: seq<T>, b: seq<T>, p: T -> bool)
    requires multiset(a) == multiset(b)
    ensures multiset(Filter(a, p)) == multiset(Filter(b, p))
  {
    var fa, fb := multiset(Filter(a, p)), multiset(Filter(b, p));
    forall x ensures fa[x] == fb[x] {
      FilterCount(a, p, x);
      FilterCount(b, p, x);
    }
    assert fa == fb;
  }

  /** A list all of whose elements pass is its own filter. */
  lemma {:induction false} FilterKeepsAll<T>(s: seq<T>, p: T -> bool)
    requires forall i :: 0 <= i < |s| ==> p(s[i])
    ensures Filter(s, p) == s
    decreases |s|
  {
    if s != [] {
      FilterKeepsAll(s[1..], p);
    }
  }

  /** A list none of whose elements pass filters to nothing. */
  lemma {:induction false} FilterDropsAll<T>(s: seq<T>, p: T -> bool)
    requires forall i :: 0 <= i < |s| ==> !p(s[i])
    ensures Filter(s, p) == []
    decreases |s|
  {
    if s != [] {
      FilterDropsAll(s[1..], p);
    }
  }

  /** Filtering twice by the same predicate is filtering once. */
  lemma FilterIdempotent<T>(s: seq<T>, p: T -> bool)
    ensures Filter(Filter(s, p), p) == Filter(s, p)
  {
    FilterKeepsAll(Filter(s, p), p);
  }

  /** `a` occurs in `b` in order, possibly with gaps ("the others keep their relative order"). */
  predicate Subsequence<T(==)>(a: seq<T>, b: seq<T>)
    decreases |b|
  {
    if a == [] then true
    else if b == [] then false
    else if a[0] == b[0] then Subsequence(a[1..], b[1..])
    else Subsequence(a, b[1..])
  }

  /** A filter keeps the surviving elements in their original relative order. */
  lemma {:induction false} FilterIsSubsequence<T>(s: seq<T>, p: T -> bool)
    ensures Subsequence(Filter(s, p), s)
    decreases |s|
  {
    if s != [] {
      FilterIsSubsequence(s[1..], p);
      if !p(s[0]) {
        var r := Filter(s[1..], p);
        assert r != [] ==> p(r[0]);
      }
    }
  }

  /** `s.findIndex(p)`: the first index whose element passes, or -1. */
  function FindIndex<T>(s: seq<T>, p: T -> bool): (r: int)
    ensures -1 <= r < |s|
    ensures r >= 0 ==> p(s[r]) && forall j :: 0 <= j < r ==> !p(s[j])
    ensures r == -1 <==> forall j :: 0 <= j < |s| ==> !p(s[j])
    decreases |s|
  {
    if s == [] then -1
    else if p(s[0]) then 0
    else
      var k := FindIndex(s[1..], p);
      if k == -1 then -1 else k + 1
  }

  /** `s.splice(i, 1)`: the list without its element at index `i`. */
  function Remove<T>(s: seq<T>, i: nat): (r: seq<T>)
    requires i < |s|
    ensures |r| == |s| - 1
    ensures forall j :: 0 <= j < i ==> r[j] == s[j]
    ensures forall j :: i <= j < |r| ==> r[j] == s[j + 1]
  {
    s[..i] + s[i + 1..]
  }

  /** `s.splice(i, 0, x)`: the list with `x` inserted before index `i`. */
  function InsertAt<T>(s: seq<T>, i: nat, x: T): (r: seq<T>)
    requires i <= |s|
    ensures |r| == |s| + 1
    ensures r[i] == x
    ensures forall j :: 0 <= j < i ==> r[j] == s[j]
    ensures forall j :: i < j < |r| ==> r[j] == s[j - 1]
  {
    s[..i] + [x] + s[i..]
  }

  /** The inserted list holds the old elements and the inserted one, and nothing else. */
  lemma InsertAtMembers<T>(s: seq<T>, i: nat, x: T)
    requires i <= |s|
    ensures forall y :: y in InsertAt(s, i, x) <==> y in s || y == x
  {
    assert s == s[..i] + s[i..];
  }

  /** Removing an element and putting it back at the same index restores the list. */
  lemma InsertRemoved<T>(s: seq<T>, i: nat)
    requires i < |s|
    ensures InsertAt(Remove(s, i), i, s[i]) == s
  {
  }

  /** Removing what was just inserted restores the list. */
  lemma RemoveInserted<T>(s: seq<T>, i: nat, x: T)
    requires i <= |s|
    ensures Remove(InsertAt(s, i, x), i) == s
  {
  }

  /** Removing one element takes exactly one copy of it out of the multiset. */
  lemma RemoveMultiset<T>(s: seq<T>, i: nat)
    requires i < |s|
    ensures multiset(Remove(s, i)) + multiset{s[i]} == multiset(s)
  {
    assert s == s[..i] + [s[i]] + s[i + 1..];
  }

  /** Inserting one element adds exactly one copy of it to the multiset. */
  lemma InsertMultiset<T>(s: seq<T>, i: nat, x: T)
    requires i <= |s|
    ensures multiset(InsertAt(s, i, x)) == multiset(s) + multiset{x}
  {
    assert s == s[..i] + s[i..];
  }

  /** Lists of at most one element are determined by their multiset. */
  lemma ShortSeqsEqual<T>(a: seq<T>, b: seq<T>)
    requires |a| <= 1 && multiset(a) == multiset(b)
    ensures a == b
  {
    assert |b| == |multiset(b)|;
    if |a| == 1 {
      assert a[0] in multiset(b);
    }
  }

  /** The dictionary `forEach(x => m[key(x)] = val(x))` builds: a later element overwrites an
      earlier one with the same key. */
  function Indexar<T, K, V>(s: seq<T>, key: T -> K, val: T -> V): map<K, V>
    decreases |s|
  {
    if s == [] then map[] else Indexar(s[..|s| - 1], key, val)[key(s[|s| - 1]) := val(s[|s| - 1])]
  }

  /** The keys are those of the elements, and each key maps to the value of the last element with
      that key. */
  lemma {:induction false} IndexarSpec<T, K, V>(s: seq<T>, key: T -> K, val: T -> V)
    ensures forall k :: k in Indexar(s, key, val) <==> exists i :: 0 <= i < |s| && key(s[i]) == k
    ensures forall k :: k in Indexar(s, key, val) ==>
      exists i :: 0 <= i < |s| && key(s[i]) == k && Indexar(s, key, val)[k] == val(s[i])
        && (forall j :: i < j < |s| ==> key(s[j]) != k)
    decreases |s|
  {
    if s != [] {
      var t := s[..|s| - 1];
      IndexarSpec(t, key, val);
      var m := Indexar(s, key, val);
      assert m == Indexar(t, key, val)[key(s[|s| - 1]) := val(s[|s| - 1])];
      forall k ensures k in m <==> exists i :: 0 <= i < |s| && key(s[i]) == k {
        if k == key(s[|s| - 1]) {
          assert key(s[|s| - 1]) == k;
        } else if k in Indexar(t, key, val) {
          var i :| 0 <= i < |t| && key(t[i]) == k;
          assert s[i] == t[i];
        }
        if exists i :: 0 <= i < |s| && key(s[i]) == k {
          var i :| 0 <= i < |s| && key(s[i]) == k;
          if i < |t| {
            assert key(t[i]) == k;
          }
        }
      }
      forall k | k in m
        ensures exists i :: (0 <= i < |s| && key(s[i]) == k && m[k] == val(s[i])
                             && forall j :: i < j < |s| ==> key(s[j]) != k)
      {
        if k == key(s[|s| - 1]) {
          assert key(s[|s| - 1]) == k && m[k] == val(s[|s| - 1]);
        } else {
          var i :| 0 <= i < |t| && key(t[i]) == k && Indexar(t, key, val)[k] == val(t[i])
            && (forall j :: i < j < |t| ==> key(t[j]) != k);
          assert key(s[i]) == k && m[k] == val(s[i]);
          assert forall j :: i < j < |s| ==> key(s[j]) != k by {
            forall j | i < j < |s| ensures key(s[j]) != k {
              if j < |t| {
                assert s[j] == t[j];
              }
            }
          }
        }
      }
    }
  }

  /** Adding an element extends the dictionary with its entry only. */
  lemma IndexarSnoc<T, K, V>(s: seq<T>, x: T, key: T -> K, val: T -> V)
    ensures Indexar(s + [x], key, val) == Indexar(s, key, val)[key(x) := val(x)]
  {
    assert (s + [x])[..|s + [x]| - 1] == s;
  }
}
