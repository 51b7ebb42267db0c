/**
 * Generic sequence operations that the portfolio code uses through
 * `Array.prototype.filter`, `new Set(...)` and `orderBy`: filtering, order-preserving
 * sub-sequences, de-duplication in first-appearance order, and a stable insertion sort.
 */
module Collections {
  import opened Wrappers

  /** `s.filter(p)`: the elements of `s` that satisfy `p`, in their original order. */
  function Filter<T>(s: seq<T>, p: T -> bool): (r: seq<T>)
    ensures |r| <= |s|
    ensures forall x :: x in r ==> x in s && p(x)
    ensures forall x :: x in s && p(x) ==> x in r
  {
    if s == [] then []
    else
      var rest := Filter(s[1..], p);
      assert forall x :: x in s[1..] ==> x in s;
      assert forall x :: x in s ==> x == s[0] || x in s[1..];
      if p(s[0]) then [s[0]] + rest else rest
  }

  /** `xs.map(f)` where `f` may fail: every result, or `None` as soon as one call fails. */
  function MapOption<A, B>(xs: seq<A>, f: A -> Option<B>): (r: Option<seq<B>>)
    ensures r.Some? <==> forall i :: 0 <= i < |xs| ==> f(xs[i]).Some?
    ensures r.Some? ==> |r.value| == |xs| && forall i :: 0 <= i < |xs| ==> f(xs[i]) == Some(r.value[i])
  {
    if xs == [] then Some([])
    else
      match f(xs[0])
      case None => None
      case Some(y) =>
        match MapOption(xs[1..], f)
        case None =>
          assert exists i :: 1 <= i < |xs| && f(xs[i]).None? by {
            var k :| 0 <= k < |xs[1..]| && f(xs[1..][k]).None?;
            assert xs[k + 1] == xs[1..][k];
          }
          None
        case Some(rest) =>
          assert forall i :: 1 <= i < |xs| ==> xs[i] == xs[1..][i - 1];
          Some([y] + rest)
  }

  /** The map succeeds exactly when no member of the input maps to `None`. */
  lemma MapOptionMembers<A, B>(xs: seq<A>, f: A -> Option<B>)
    ensures MapOption(xs, f).Some? <==> forall x :: x in xs ==> f(x).Some?
  {
    if !(forall x :: x in xs ==> f(x).Some?) {
      var x :| x in xs && f(x).None?;
      var i :| 0 <= i < |xs| && xs[i] == x;
    }
  }

  /** Number of elements of `s` that satisfy `p` (`s.filter(p).length`). */
  function Count<T>(s: seq<T>, p: T -> bool): nat {
    |Filter(s, p)|
  }

  /** `r` is `s` with some elements removed, the remaining ones in their original order. */
  ghost predicate IsSubsequence<T>(r: seq<T>, s: seq<T>)
    decreases |s|
  {
    |r| <= |s| &&
    (r == [] || (s != [] && ((r[0] == s[0] && IsSubsequence(r[1..], s[1..])) || IsSubsequence(r, s[1..]))))
  }

  lemma {:induction false} FilterConcat<T>(a: seq<T>, b: seq<T>, p: T -> bool)
    ensures Filter(a + b, p) == Filter(a, p) + Filter(b, p)
  {
    if a == [] {
      assert a + b == b;
    } else {
      assert (a + b)[1..] == a[1..] + b;
      FilterConcat(a[1..], b, p);
    }
  }

  /** Filtering with a predicate that holds everywhere in `s` gives `s` back. */
  lemma {:induction false} FilterKeepsAll<T>(s: seq<T>, p: T -> bool)
    requires forall x :: x in s ==> p(x)
    ensures Filter(s, p) == s
  {
    if s != [] {
      assert forall x :: x in s[1..] ==> x in s;
      FilterKeepsAll(s[1..], p);
    }
  }

  /** Filtering with a predicate that holds nowhere in `s` gives the empty sequence. */
  lemma {:induction false} FilterDropsAll<T>(s: seq<T>, p: T -> bool)
    requires forall x :: x in s ==> !p(x)
    ensures Filter(s, p) == []
  {
    if s != [] {
      assert forall x :: x in s[1..] ==> x in s;
      FilterDropsAll(s[1..], p);
    }
  }

  /** A filter result is a sub-sequence of its input: entries removed, order kept. */
  lemma {:induction false} FilterIsSubsequence<T>(s: seq<T>, p: T -> bool)
    ensures IsSubsequence(Filter(s, p), s)
  {
    if s != [] {
      FilterIsSubsequence(s[1..], p);
      if p(s[0]) {
        assert ([s[0]] + Filter(s[1..], p))[1..] == Filter(s[1..], p);
      }
    }
  }

  lemma {:induction false} SubsequenceReflexive<T>(s: seq<T>)
    ensures IsSubsequence(s, s)
  {
    if s != [] {
      SubsequenceReflexive(s[1..]);
    }
  }

  /** A weaker predicate keeps everything a stronger one keeps, in the same order. */
  lemma {:induction false} FilterMonotone<T>(s: seq<T>, p: T -> bool, q: T -> bool)
    requires forall x :: x in s && p(x) ==> q(x)
    ensures IsSubsequence(Filter(s, p), Filter(s, q))
  {
    if s != [] {
      assert forall x :: x in s[1..] ==> x in s;
      FilterMonotone(s[1..], p, q);
      var fp, fq := Filter(s[1..], p), Filter(s[1..], q);
      if p(s[0]) {
        assert ([s[0]] + fp)[1..] == fp && ([s[0]] + fq)[1..] == fq;
      } else if q(s[0]) {
        assert ([s[0]] + fq)[1..] == fq;
      }
    }
  }

  /** When `either` holds exactly where one of two disjoint predicates does, its count is their sum. */
  lemma {:induction false} CountDisjointSum<T>(s: seq<T>, p: T -> bool, q: T -> bool, either: T -> bool)
    requires forall x :: x in s ==> !(p(x) && q(x))
    requires forall x :: x in s ==> (either(x) <==> p(x) || q(x))
    ensures Count(s, p) + Count(s, q) == Count(s, either)
  {
    if s != [] {
      assert forall x :: x in s[1..] ==> x in s;
      CountDisjointSum(s[1..], p, q, either);
    }
  }

  /** Two predicates that agree on every element of `s` select the same elements. */
  lemma {:induction false} FilterExtensional<T>(s: seq<T>, p: T -> bool, q: T -> bool)
    requires forall x :: x in s ==> (p(x) <==> q(x))
    ensures Filter(s, p) == Filter(s, q)
  {
    if s != [] {
      assert forall x :: x in s[1..] ==> x in s;
      FilterExtensional(s[1..], p, q);
    }
  }

  predicate NoDuplicates<T(==)>(s: seq<T>) {
    forall i, j :: 0 <= i < j < |s| ==> s[i] != s[j]
  }

  /** Index of the first occurrence of `x` in `s`. */
  function FirstIndex<T(==)>(s: seq<T>, x: T): (i: nat)
    requires x in s
    ensures i < |s| && s[i] == x && x !in s[..i]
  {
    if s[0] == x then 0
    else
      var j := FirstIndex(s[1..], x);
      assert s[..j + 1] == [s[0]] + s[1..][..j];
      j + 1
  }

  lemma FirstIndexUnique<T>(s: seq<T>, x: T, i: nat)
    requires i < |s| && s[i] == x && x !in s[..i]
    ensures FirstIndex(s, x) == i
  {
  }

  lemma FirstIndexOfPrefix<T>(s: seq<T>, n: nat, x: T)
    requires n <= |s| && x in s[..n]
    ensures FirstIndex(s, x) == FirstIndex(s[..n], x) < n
  {
    var f := FirstIndex(s[..n], x);
    assert s[..n][..f] == s[..f];
    FirstIndexUnique(s, x, f);
  }

  /**
   * `Array.from(new Set(s))`: each distinct element once, in the order of its first
   * appearance in `s` (a JavaScript Set iterates in insertion order).
   */
  function Dedup<T(==,!new)>(s: seq<T>): (r: seq<T>)
    ensures forall x :: x in r <==> x in s
    ensures NoDuplicates(r)
    decreases |s|
  {
    if s == [] then []
    else
      var init, last := s[..|s| - 1], s[|s| - 1];
      assert s == init + [last];
      var d := Dedup(init);
      if last in init then d else d + [last]
  }

  /** The elements of `Dedup(s)` come in the order of their first occurrences in `s`. */
  lemma {:induction false} DedupFirstAppearanceOrder<T(!new)>(s: seq<T>)
    ensures forall j, k :: 0 <= j < k < |Dedup(s)| ==>
      FirstIndex(s, Dedup(s)[j]) < FirstIndex(s, Dedup(s)[k])
    decreases |s|
  {
    if s != [] {
      var n := |s| - 1;
      var init, last := s[..n], s[n];
      var d := Dedup(init);
      DedupFirstAppearanceOrder(init);
      forall x | x in d ensures FirstIndex(s, x) == FirstIndex(init, x) < n {
        FirstIndexOfPrefix(s, n, x);
      }
      assert s == init + [last];
      if last in init {
        assert Dedup(s) == d;
      } else {
        FirstIndexUnique(s, last, n);
        var r := d + [last];
        assert Dedup(s) == r;
        assert forall x :: x in r ==> x in s;
        forall j, k | 0 <= j < k < |r| ensures FirstIndex(s, r[j]) < FirstIndex(s, r[k]) {
          assert r[j] == d[j];
          if k < |d| {
            assert r[k] == d[k];
          }
        }
      }
    }
  }

  /** A sequence without repeats has as many elements as its set of members. */
  lemma {:induction false} DistinctCardinality<T>(r: seq<T>)
    requires NoDuplicates(r)
    ensures |set x | x in r| == |r|
  {
    if r != [] {
      var tail := r[1..];
      assert NoDuplicates(tail) by {
        forall i, j | 0 <= i < j < |tail| ensures tail[i] != tail[j] {
          assert tail[i] == r[i + 1] && tail[j] == r[j + 1];
        }
      }
      DistinctCardinality(tail);
      assert (set x | x in r) == (set x | x in tail) + {r[0]};
      assert r[0] !in (set x | x in tail);
    }
  }

  /** `new Set(s).size`: the length of `Dedup(s)` is the number of distinct elements of `s`. */
  lemma DedupCountsDistinct<T(!new)>(s: seq<T>)
    ensures |Dedup(s)| == |set x | x in s|
    ensures |Dedup(s)| <= |s|
  {
    DistinctCardinality(Dedup(s));
    assert (set x | x in Dedup(s)) == (set x | x in s);
    DistinctAtMostLength(s);
  }

  /** A sequence has at least as many elements as distinct members. */
  lemma {:induction false} DistinctAtMostLength<T>(s: seq<T>)
    ensures |set x | x in s| <= |s|
  {
    if s != [] {
      DistinctAtMostLength(s[1..]);
      assert (set x | x in s) == (set x | x in s[1..]) + {s[0]};
    }
  }

  /** `le` is a total preorder: every two elements compare, and comparison is transitive. */
  ghost predicate TotalPreorder<T(!new)>(le: (T, T) -> bool) {
    (forall a, b :: le(a, b) || le(b, a)) &&
    (forall a, b, c :: le(a, b) && le(b, c) ==> le(a, c))
  }

  ghost predicate SortedBy<T>(s: seq<T>, le: (T, T) -> bool) {
    forall i, j :: 0 <= i < j < |s| ==> le(s[i], s[j])
  }

  /** Places `x` before the first element it is `le` to; equal elements keep their order. */
  function Insert<T>(x: T, s: seq<T>, le: (T, T) -> bool): (r: seq<T>)
    ensures multiset(r) == multiset(s) + multiset{x}
  {
    if s == [] then [x]
    else if le(x, s[0]) then [x] + s
    else
      assert s == [s[0]] + s[1..];
      [s[0]] + Insert(x, s[1..], le)
  }

  /** Stable insertion sort: the database's `orderBy` as a function of the selected rows. */
  function SortBy<T>(s: seq<T>, le: (T, T) -> bool): (r: seq<T>)
    ensures multiset(r) == multiset(s)
  {
    if s == [] then []
    else
      assert s == [s[0]] + s[1..];
      Insert(s[0], SortBy(s[1..], le), le)
  }

  lemma {:induction false} InsertSorted<T(!new)>(x: T, s: seq<T>, le: (T, T) -> bool)
    requires TotalPreorder(le) && SortedBy(s, le)
    ensures SortedBy(Insert(x, s, le), le)
  {
    if s != [] && !le(x, s[0]) {
      var tail := Insert(x, s[1..], le);
      InsertSorted(x, s[1..], le);
      forall k | 0 <= k < |tail| ensures le(s[0], tail[k]) {
        assert tail[k] in multiset(tail);
        if tail[k] != x {
          assert tail[k] in multiset(s[1..]);
          var m :| 0 <= m < |s[1..]| && s[1..][m] == tail[k];
          assert s[m + 1] == tail[k];
        }
      }
      var r := [s[0]] + tail;
      forall i, j | 0 <= i < j < |r| ensures le(r[i], r[j]) {
        if i > 0 {
          assert r[i] == tail[i - 1] && r[j] == tail[j - 1];
        } else {
          assert r[j] == tail[j - 1];
        }
      }
    } else if s != [] {
      var r := [x] + s;
      forall i, j | 0 <= i < j < |r| ensures le(r[i], r[j]) {
        if i > 0 {
          assert r[i] == s[i - 1] && r[j] == s[j - 1];
        } else if j > 1 {
          assert r[j] == s[j - 1];
          assert le(s[0], s[j - 1]);
        }
      }
    }
  }

  /** With a total preorder, `SortBy` yields a sorted permutation of its input. */
  lemma {:induction false} SortBySorted<T(!new)>(s: seq<T>, le: (T, T) -> bool)
    requires TotalPreorder(le)
    ensures SortedBy(SortBy(s, le), le)
  {
    if s != [] {
      SortBySorted(s[1..], le);
      InsertSorted(s[0], SortBy(s[1..], le), le);
    }
  }

  /** Sorting neither adds nor removes elements. */
  lemma SortByMembers<T>(s: seq<T>, le: (T, T) -> bool, x: T)
    ensures x in SortBy(s, le) <==> x in s
  {
    assert x in SortBy(s, le) <==> x in multiset(SortBy(s, le));
    assert x in s <==> x in multiset(s);
  }
}
