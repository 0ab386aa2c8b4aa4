/** `favoritos.sort((a, b) => a.ordem - b.ordem)`: JavaScript's sort is stable, so it is modelled
    as an insertion sort on `ordem` that keeps equal ranks in their original order. */
module Ordering {
  import opened Seqs
  import opened Records

  /** `favoritos.filter(f => f.secao_id === s)`. */
  function OfSection(fs: seq<Favorito>, s: Id): seq<Favorito>
  {
    Filter(fs, InSecao(s))
  }

  /** Non-decreasing `ordem`. */
  predicate Sorted(s: seq<Favorito>)
  {
    forall i, j :: 0 <= i < j < |s| ==> s[i].ordem <= s[j].ordem
  }

  /** The predicate "has rank k", used to state stability. */
  function HasRank(k: int): Favorito -> bool
  {
    (f: Favorito) => f.ordem == k
  }

  /** Inserts `x` before the first element whose rank is not smaller. */
  function Insert(x: Favorito, s: seq<Favorito>): (r: seq<Favorito>)
    ensures multiset(r) == multiset(s) + multiset{x}
    decreases |s|
  {
    if s == [] then [x]
    else if x.ordem <= s[0].ordem then [x] + s
    else
      assert s == [s[0]] + s[1..];
      [s[0]] + Insert(x, s[1..])
  }

  /** The stable sort by `ordem`. */
  function SortByOrdem(s: seq<Favorito>): (r: seq<Favorito>)
    ensures multiset(r) == multiset(s)
    decreases |s|
  {
    if s == [] then []
    else
      assert s == [s[0]] + s[1..];
      Insert(s[0], SortByOrdem(s[1..]))
  }

  /** A list headed by `x` is sorted when its tail is and `x` ranks no higher than any of it. */
  lemma SortedCons(x: Favorito, t: seq<Favorito>)
    requires Sorted(t)
    requires forall y :: y in t ==> x.ordem <= y.ordem
    ensures Sorted([x] + t)
  {
    forall i, j | 0 <= i < j < |[x] + t| ensures ([x] + t)[i].ordem <= ([x] + t)[j].ordem {
      if i == 0 {
        assert ([x] + t)[j] in t;
      }
    }
  }

  /** Insertion keeps a sorted list sorted. */
  lemma {:induction false} InsertSorted(x: Favorito, s: seq<Favorito>)
    requires Sorted(s)
    ensures Sorted(Insert(x, s))
    decreases |s|
  {
    if s == [] {
    } else if x.ordem <= s[0].ordem {
      SortedCons(x, s);
    } else {
      var t := Insert(x, s[1..]);
      InsertSorted(x, s[1..]);
      forall y | y in t ensures s[0].ordem <= y.ordem {
        assert y in multiset(t);
        assert y == x || y in s[1..];
      }
      SortedCons(s[0], t);
    }
  }

  /** The sort puts the favorites in non-decreasing `ordem`. */
  lemma {:induction false} SortSorted(s: seq<Favorito>)
    ensures Sorted(SortByOrdem(s))
    decreases |s|
  {
    if s != [] {
      SortSorted(s[1..]);
      InsertSorted(s[0], SortByOrdem(s[1..]));
    }
  }

  /** A filter of a sorted list is sorted. */
  lemma {:induction false} FilterSorted(s: seq<Favorito>, p: Favorito -> bool)
    requires Sorted(s)
    ensures Sorted(Filter(s, p))
    decreases |s|
  {
    if s != [] {
      var t := Filter(s[1..], p);
      FilterSorted(s[1..], p);
      if p(s[0]) {
        FilterMembers(s[1..], p);
        forall y | y in t ensures s[0].ordem <= y.ordem {
          var j :| 0 <= j < |s[1..]| && s[1..][j] == y;
          assert s[j + 1] == y;
        }
        SortedCons(s[0], t);
      }
    }
  }

  /** Filtering by rank peels off the head of a list. */
  lemma FilterRankCons(x: Favorito, t: seq<Favorito>, k: int)
    ensures Filter([x] + t, HasRank(k)) == (if x.ordem == k then [x] else []) + Filter(t, HasRank(k))
  {
    assert ([x] + t)[1..] == t;
  }

  /** Inserting `x` adds it in front of the elements of its own rank and leaves the other ranks alone. */
  lemma {:induction false} InsertStable(x: Favorito, s: seq<Favorito>, k: int)
    ensures Filter(Insert(x, s), HasRank(k)) == (if x.ordem == k then [x] else []) + Filter(s, HasRank(k))
    decreases |s|
  {
    if s != [] && x.ordem > s[0].ordem {
      InsertStable(x, s[1..], k);
      FilterAppend([s[0]], Insert(x, s[1..]), HasRank(k));
      FilterAppend([s[0]], s[1..], HasRank(k));
      assert s == [s[0]] + s[1..];
    } else if s != [] {
      FilterAppend([x], s, HasRank(k));
    }
  }

  /** The sort is stable: the favorites of any one rank keep their original relative order. */
  lemma {:induction false} SortStable(s: seq<Favorito>, k: int)
    ensures Filter(SortByOrdem(s), HasRank(k)) == Filter(s, HasRank(k))
    decreases |s|
  {
    if s != [] {
      SortStable(s[1..], k);
      InsertStable(s[0], SortByOrdem(s[1..]), k);
      FilterAppend([s[0]], s[1..], HasRank(k));
      assert s == [s[0]] + s[1..];
    }
  }

  /** A list already in rank order is left as it is. */
  lemma {:induction false} SortedUnchanged(s: seq<Favorito>)
    requires Sorted(s)
    ensures SortByOrdem(s) == s
    decreases |s|
  {
    if s != [] {
      SortedUnchanged(s[1..]);
    }
  }

  /** A sorted list is determined by its rank classes: two sorted lists whose favorites of each
      rank agree, in order, are equal. */
  lemma {:induction false} SortedUnique(a: seq<Favorito>, b: seq<Favorito>)
    requires Sorted(a) && Sorted(b)
    requires forall k :: Filter(a, HasRank(k)) == Filter(b, HasRank(k))
    ensures a == b
    decreases |a| + |b|
  {
    if a == [] && b == [] {
    } else if a == [] {
      HeadClass(b);
      assert false;
    } else if b == [] {
      HeadClass(a);
      assert false;
    } else {
      SortedHeads(a, b);
      SameHeads(a, b);
      forall k ensures Filter(a[1..], HasRank(k)) == Filter(b[1..], HasRank(k)) {
        SameTailClass(a, b, k);
      }
      SortedUnique(a[1..], b[1..]);
      assert a == [a[0]] + a[1..];
      assert b == [b[0]] + b[1..];
    }
  }

  /** The head of a list opens the class of its own rank. */
  lemma HeadClass(a: seq<Favorito>)
    requires a != []
    ensures Filter(a, HasRank(a[0].ordem)) == [a[0]] + Filter(a[1..], HasRank(a[0].ordem))
  {
  }

  /** Two non-empty sorted lists with the same rank classes start at the same rank. */
  lemma SortedHeads(a: seq<Favorito>, b: seq<Favorito>)
    requires Sorted(a) && Sorted(b) && a != [] && b != []
    requires forall k :: Filter(a, HasRank(k)) == Filter(b, HasRank(k))
    ensures a[0].ordem == b[0].ordem
  {
    var ma, mb := a[0].ordem, b[0].ordem;
    HeadClass(a);
    HeadClass(b);
    assert a[0] in Filter(b, HasRank(ma));
    assert b[0] in Filter(a, HasRank(mb));
    FilterMembers(a, HasRank(mb));
    FilterMembers(b, HasRank(ma));
    assert a[0] in b;
    assert b[0] in a;
  }

  /** Lists with the same rank classes whose heads share a rank have the same head. */
  lemma SameHeads(a: seq<Favorito>, b: seq<Favorito>)
    requires a != [] && b != [] && a[0].ordem == b[0].ordem
    requires Filter(a, HasRank(a[0].ordem)) == Filter(b, HasRank(a[0].ordem))
    ensures a[0] == b[0]
  {
    var m := a[0].ordem;
    HeadClass(a);
    HeadClass(b);
    assert Filter(a, HasRank(m))[0] == a[0];
    assert Filter(b, HasRank(m))[0] == b[0];
  }

  /** Lists with the same head and the same class of rank `k` have tails with the same class of rank `k`. */
  lemma SameTailClass(a: seq<Favorito>, b: seq<Favorito>, k: int)
    requires a != [] && b != [] && a[0] == b[0]
    requires Filter(a, HasRank(k)) == Filter(b, HasRank(k))
    ensures Filter(a[1..], HasRank(k)) == Filter(b[1..], HasRank(k))
  {
    assert a == [a[0]] + a[1..];
    assert b == [b[0]] + b[1..];
    FilterRankCons(a[0], a[1..], k);
    FilterRankCons(b[0], b[1..], k);
    if a[0].ordem == k {
      assert Filter(a[1..], HasRank(k)) == Filter(a, HasRank(k))[1..];
      assert Filter(b[1..], HasRank(k)) == Filter(b, HasRank(k))[1..];
    }
  }
}
