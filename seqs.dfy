/** Array.prototype.filter, counting with `filter(...).length`, and
    Array.prototype.sort on a copy, modelled by a stable insertion sort. */
module Seqs {

  function Filter<T>(s: seq<T>, p: T -> bool): (r: seq<T>)
    ensures |r| <= |s|
    ensures forall x :: x in r ==> x in s && p(x)
  {
    if s == [] then [] else (if p(s[0]) then [s[0]] else []) + Filter(s[1..], p)
  }

  /** `s.filter(p).length`. */
  function Count<T>(s: seq<T>, p: T -> bool): nat {
    |Filter(s, p)|
  }

  /** `a` is an order-preserving sub-list of `b`. */
  predicate IsSubsequence<T(==)>(a: seq<T>, b: seq<T>) {
    a == [] || (b != [] && ((a[0] == b[0] && IsSubsequence(a[1..], b[1..])) || IsSubsequence(a, b[1..])))
  }

  lemma {:induction false} FilterMembership<T>(s: seq<T>, p: T -> bool, x: T)
    ensures x in Filter(s, p) <==> x in s && p(x)
  {
    if s != [] {
      FilterMembership(s[1..], p, x);
      assert s == [s[0]] + s[1..];
    }
  }

  lemma {:induction false} FilterIsSubsequence<T>(s: seq<T>, p: T -> bool)
    ensures IsSubsequence(Filter(s, p), s)
  {
    if s != [] {
      FilterIsSubsequence(s[1..], p);
      var rest := Filter(s[1..], p);
      if p(s[0]) {
        assert Filter(s, p) == [s[0]] + rest;
        assert Filter(s, p)[1..] == rest;
      } else {
        assert Filter(s, p) == rest;
      }
    }
  }

  lemma {:induction false} SubsequenceReflexive<T>(s: seq<T>)
    ensures IsSubsequence(s, s)
  {
    if s != [] {
      SubsequenceReflexive(s[1..]);
    }
  }

  lemma {:induction false} FilterAll<T>(s: seq<T>, p: T -> bool)
    requires forall x :: x in s ==> p(x)
    ensures Filter(s, p) == s
  {
    if s != [] {
      FilterAll(s[1..], p);
      assert s == [s[0]] + s[1..];
    }
  }

  /** Filtering by a stronger predicate can be done after filtering by the weaker one. */
  lemma {:induction false} FilterOfFilter<T>(s: seq<T>, p: T -> bool, q: T -> bool)
    requires forall x :: p(x) ==> q(x)
    ensures Filter(s, p) == Filter(Filter(s, q), p)
  {
    if s != [] {
      FilterOfFilter(s[1..], p, q);
      var fq := Filter(s[1..], q);
      if q(s[0]) {
        assert Filter(s, q) == [s[0]] + fq;
        assert ([s[0]] + fq)[1..] == fq;
        assert Filter([s[0]] + fq, p) == (if p(s[0]) then [s[0]] else []) + Filter(fq, p);
      } else {
        assert Filter(s, q) == fq;
      }
    }
  }

  /** Filtering by a stronger predicate keeps an order-preserving part of what
      the weaker one keeps. */
  lemma FilterNarrows<T>(s: seq<T>, p: T -> bool, q: T -> bool)
    requires forall x :: p(x) ==> q(x)
    ensures IsSubsequence(Filter(s, p), Filter(s, q))
  {
    FilterOfFilter(s, p, q);
    FilterIsSubsequence(Filter(s, q), p);
  }

  /** A predicate and its negation split a list. */
  lemma {:induction false} CountComplement<T>(s: seq<T>, p: T -> bool, q: T -> bool)
    requires forall x :: q(x) == !p(x)
    ensures Count(s, p) + Count(s, q) == |s|
  {
    if s != [] {
      CountComplement(s[1..], p, q);
    }
  }

  /** Two predicates that never hold together count at most the list length. */
  lemma {:induction false} CountDisjoint<T>(s: seq<T>, p: T -> bool, q: T -> bool)
    requires forall x :: !(p(x) && q(x))
    ensures Count(s, p) + Count(s, q) <= |s|
  {
    if s != [] {
      CountDisjoint(s[1..], p, q);
    }
  }

  lemma {:induction false} CountImplies<T>(s: seq<T>, p: T -> bool, q: T -> bool)
    requires forall x :: p(x) ==> q(x)
    ensures Count(s, p) <= Count(s, q)
  {
    if s != [] {
      CountImplies(s[1..], p, q);
    }
  }

  // ---------------------------------------------------------------------------
  // Sorting with a comparator returning negative, zero or positive.

  /** Inserts `x` before the first element it does not compare greater than. */
  function Insert<T>(x: T, s: seq<T>, cmp: (T, T) -> int): (r: seq<T>)
    ensures |r| == |s| + 1
  {
    if s == [] then [x]
    else if cmp(x, s[0]) <= 0 then [x] + s
    else [s[0]] + Insert(x, s[1..], cmp)
  }

  /** `[...s].sort(cmp)`: stable, so elements the comparator calls equal keep their order. */
  function Sort<T>(s: seq<T>, cmp: (T, T) -> int): (r: seq<T>)
    ensures |r| == |s|
  {
    if s == [] then [] else Insert(s[0], Sort(s[1..], cmp), cmp)
  }

  lemma {:induction false} InsertPermutes<T>(x: T, s: seq<T>, cmp: (T, T) -> int)
    ensures multiset(Insert(x, s, cmp)) == multiset(s) + multiset{x}
  {
    if s == [] {
      assert Insert(x, s, cmp) == [x];
    } else if cmp(x, s[0]) <= 0 {
      assert Insert(x, s, cmp) == [x] + s;
    } else {
      var r := Insert(x, s[1..], cmp);
      InsertPermutes(x, s[1..], cmp);
      assert Insert(x, s, cmp) == [s[0]] + r;
      calc {
        multiset([s[0]] + r);
        multiset([s[0]]) + multiset(r);
        multiset([s[0]]) + multiset(s[1..]) + multiset{x};
        { assert s == [s[0]] + s[1..]; }
        multiset(s) + multiset{x};
      }
    }
  }

  /** The sorted copy holds exactly the elements of the input. */
  lemma {:induction false} SortPermutes<T>(s: seq<T>, cmp: (T, T) -> int)
    ensures multiset(Sort(s, cmp)) == multiset(s)
  {
    if s != [] {
      SortPermutes(s[1..], cmp);
      InsertPermutes(s[0], Sort(s[1..], cmp), cmp);
      assert s == [s[0]] + s[1..];
    }
  }

  /** A comparator that calls every pair equal leaves the order unchanged. */
  lemma {:induction false} SortNeutral<T>(s: seq<T>, cmp: (T, T) -> int)
    requires forall a, b :: cmp(a, b) == 0
    ensures Sort(s, cmp) == s
  {
    if s != [] {
      SortNeutral(s[1..], cmp);
      assert s == [s[0]] + s[1..];
    }
  }

  /** The comparator orders its arguments consistently: total and transitive. */
  ghost predicate TotalPreorder<T(!new)>(cmp: (T, T) -> int) {
    (forall a, b :: cmp(a, b) <= 0 || cmp(b, a) <= 0) &&
    (forall a, b, c :: cmp(a, b) <= 0 && cmp(b, c) <= 0 ==> cmp(a, c) <= 0)
  }

  ghost predicate Sorted<T>(s: seq<T>, cmp: (T, T) -> int) {
    forall i, j :: 0 <= i < j < |s| ==> cmp(s[i], s[j]) <= 0
  }

  lemma {:induction false} InsertMembers<T>(x: T, s: seq<T>, cmp: (T, T) -> int, y: T)
    requires y in Insert(x, s, cmp)
    ensures y == x || y in s
  {
    if s != [] && cmp(x, s[0]) > 0 && y != s[0] {
      InsertMembers(x, s[1..], cmp, y);
    }
  }

  /** Putting `x` in front of a sorted list it does not exceed keeps it sorted. */
  lemma ConsSorted<T(!new)>(x: T, s: seq<T>, cmp: (T, T) -> int)
    requires TotalPreorder(cmp) && Sorted(s, cmp)
    requires forall j :: 0 <= j < |s| ==> cmp(x, s[j]) <= 0
    ensures Sorted([x] + s, cmp)
  {
    var r := [x] + s;
    forall i, j | 0 <= i < j < |r| ensures cmp(r[i], r[j]) <= 0 {
      if i == 0 {
        assert r[j] == s[j - 1];
      } else {
        assert r[i] == s[i - 1] && r[j] == s[j - 1];
      }
    }
  }

  lemma {:induction false} InsertSorted<T(!new)>(x: T, s: seq<T>, cmp: (T, T) -> int)
    requires TotalPreorder(cmp) && Sorted(s, cmp)
    ensures Sorted(Insert(x, s, cmp), cmp)
  {
    if s == [] {
    } else if cmp(x, s[0]) <= 0 {
      assert Insert(x, s, cmp) == [x] + s;
      forall j | 0 <= j < |s| ensures cmp(x, s[j]) <= 0 {
        if j > 0 {
          assert cmp(s[0], s[j]) <= 0;
        }
      }
      ConsSorted(x, s, cmp);
    } else {
      InsertSorted(x, s[1..], cmp);
      var rest := Insert(x, s[1..], cmp);
      assert Insert(x, s, cmp) == [s[0]] + rest;
      assert Sorted(s[1..], cmp) by {
        forall i, j | 0 <= i < j < |s[1..]| ensures cmp(s[1..][i], s[1..][j]) <= 0 {
          assert s[1..][i] == s[i + 1] && s[1..][j] == s[j + 1];
        }
      }
      forall j | 0 <= j < |rest| ensures cmp(s[0], rest[j]) <= 0 {
        InsertMembers(x, s[1..], cmp, rest[j]);
        if rest[j] != x {
          var k :| 0 <= k < |s[1..]| && s[1..][k] == rest[j];
          assert s[k + 1] == rest[j];
        }
      }
      ConsSorted(s[0], rest, cmp);
    }
  }

  /** Under a consistent comparator the copy comes out ordered. */
  lemma {:induction false} SortSorted<T(!new)>(s: seq<T>, cmp: (T, T) -> int)
    requires TotalPreorder(cmp)
    ensures Sorted(Sort(s, cmp), cmp)
  {
    if s != [] {
      SortSorted(s[1..], cmp);
      InsertSorted(s[0], Sort(s[1..], cmp), cmp);
    }
  }

  /** Comparator `key(a) - key(b)` (ascending) or `key(b) - key(a)` (descending). */
  function ByKey<T>(key: T -> int, ascending: bool): (T, T) -> int {
    (a: T, b: T) => if ascending then key(a) - key(b) else key(b) - key(a)
  }

  lemma ByKeyIsTotalPreorder<T(!new)>(key: T -> int, ascending: bool)
    ensures TotalPreorder(ByKey(key, ascending))
  {
  }
}
