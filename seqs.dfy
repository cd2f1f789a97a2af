/**
 * The LINQ operators the repositories and services compose, over finite
 * sequences: `Where`, `Select`, `Count`, `FirstOrDefault`, `Any`, `Skip`,
 * `Take` and a stable `OrderBy` whose only promise is what the database
 * promises: the result is a permutation of the input, sorted by the key.
 */
module Seqs {
  import opened Wrappers

  // ------------------------------------------------------------- Where

  function Filter<T>(s: seq<T>, p: T -> bool): (r: seq<T>)
    ensures |r| <= |s|
    ensures forall x | x in r :: x in s && p(x)
    ensures forall x | x in s && p(x) :: x in r
    ensures forall i :: 0 <= i < |r| ==> p(r[i])
  {
    if s == [] then []
    else if p(s[0]) then [s[0]] + Filter(s[1..], p)
    else Filter(s[1..], p)
  }

  /** `Where` keeps the relative order and the multiplicity of what it keeps. */
  lemma {:induction false} FilterMultiset<T>(s: seq<T>, p: T -> bool)
    ensures multiset(Filter(s, p)) <= multiset(s)
    ensures forall x :: p(x) ==> multiset(Filter(s, p))[x] == multiset(s)[x]
  {
    if s != [] {
      FilterMultiset(s[1..], p);
      var t := Filter(s[1..], p);
      assert s == [s[0]] + s[1..];
      assert multiset(s) == multiset([s[0]]) + multiset(s[1..]);
      if p(s[0]) {
        assert Filter(s, p) == [s[0]] + t;
        assert multiset(Filter(s, p)) == multiset([s[0]]) + multiset(t);
      } else {
        assert Filter(s, p) == t;
      }
    }
  }

  /** Filtering everything that passes changes nothing. */
  lemma {:induction false} FilterAll<T>(s: seq<T>, p: T -> bool)
    requires forall i :: 0 <= i < |s| ==> p(s[i])
    ensures Filter(s, p) == s
  {
    if s != [] {
      FilterAll(s[1..], p);
      assert s == [s[0]] + s[1..];
    }
  }

  /** A `Where` applied only when its condition holds, as a query built step by step. */
  function Where<T>(s: seq<T>, apply: bool, p: T -> bool): seq<T> {
    if apply then Filter(s, p) else s
  }

  /** The predicate `a`, strengthened by `p` when `apply` holds. */
  function And<T>(a: T -> bool, apply: bool, p: T -> bool): T -> bool {
    x => a(x) && (apply ==> p(x))
  }

  /** One more conditional `Where` on a filtered sequence is one filter by the conjunction. */
  lemma {:induction false} WhereStep<T>(s: seq<T>, a: T -> bool, apply: bool, p: T -> bool)
    ensures Where(Filter(s, a), apply, p) == Filter(s, And(a, apply, p))
  {
    if s != [] {
      WhereStep(s[1..], a, apply, p);
    }
  }

  /** Filters by predicates that agree on `s` agree. */
  lemma {:induction false} FilterExt<T>(s: seq<T>, p: T -> bool, q: T -> bool)
    requires forall x | x in s :: p(x) == q(x)
    ensures Filter(s, p) == Filter(s, q)
  {
    if s != [] {
      assert forall x | x in s[1..] :: x in s;
      FilterExt(s[1..], p, q);
    }
  }

  /** `Where` distributes over concatenation. */
  lemma {:induction false} FilterAppend<T>(a: seq<T>, b: seq<T>, p: T -> bool)
    ensures Filter(a + b, p) == Filter(a, p) + Filter(b, p)
  {
    if a == [] {
      assert a + b == b;
    } else {
      assert (a + b)[0] == a[0];
      assert (a + b)[1..] == a[1..] + b;
      FilterAppend(a[1..], b, p);
    }
  }

  /** Filtering out everything leaves nothing. */
  lemma FilterNone<T>(s: seq<T>, p: T -> bool)
    requires forall x | x in s :: !p(x)
    ensures Filter(s, p) == []
  {
    if Filter(s, p) != [] {
      assert Filter(s, p)[0] in Filter(s, p);
    }
  }

  /** `Count(p)`. */
  function Count<T>(s: seq<T>, p: T -> bool): (n: nat)
    ensures n <= |s|
  {
    |Filter(s, p)|
  }

  /** `Any(p)`. */
  predicate Any<T>(s: seq<T>, p: T -> bool) {
    exists i :: 0 <= i < |s| && p(s[i])
  }

  lemma {:induction false} CountZeroIffNone<T>(s: seq<T>, p: T -> bool)
    ensures Count(s, p) == 0 <==> !Any(s, p)
  {
    if Count(s, p) != 0 {
      var x := Filter(s, p)[0];
      assert x in s && p(x);
      var i :| 0 <= i < |s| && s[i] == x;
    }
    if Any(s, p) {
      var i :| 0 <= i < |s| && p(s[i]);
      assert s[i] in Filter(s, p);
    }
  }

  // ------------------------------------------------------------ Select

  function Map<T, U>(s: seq<T>, f: T -> U): (r: seq<U>)
    ensures |r| == |s|
    ensures forall i :: 0 <= i < |s| ==> r[i] == f(s[i])
  {
    seq(|s|, i requires 0 <= i < |s| => f(s[i]))
  }

  /** Projecting through `f` and back through a left inverse `g` gives the input. */
  lemma MapInverse<T, U>(s: seq<T>, f: T -> U, g: U -> T)
    requires forall x | x in s :: g(f(x)) == x
    ensures Map(Map(s, f), g) == s
  {
    assert forall i :: 0 <= i < |s| ==> s[i] in s;
  }

  // ---------------------------------------------------- FirstOrDefault

  /** The first element that satisfies `p`, or `None` when there is none. */
  function FirstWhere<T>(s: seq<T>, p: T -> bool): (r: Option<T>)
    ensures r.Some? ==> r.value in s && p(r.value)
    ensures r.None? <==> !Any(s, p)
  {
    if s == [] then None
    else if p(s[0]) then Some(s[0])
    else
      var r := FirstWhere(s[1..], p);
      assert Any(s[1..], p) ==> Any(s, p) by {
        if Any(s[1..], p) {
          var i :| 0 <= i < |s[1..]| && p(s[1..][i]);
          assert p(s[i + 1]);
        }
      }
      r
  }

  /** Past a prefix with no match, the first match of `a + b` is the first match of `b`. */
  lemma {:induction false} FirstWhereAppend<T>(a: seq<T>, b: seq<T>, p: T -> bool)
    requires !Any(a, p)
    ensures FirstWhere(a + b, p) == FirstWhere(b, p)
  {
    if a == [] {
      assert a + b == b;
    } else {
      assert !p(a[0]);
      assert (a + b)[0] == a[0];
      assert (a + b)[1..] == a[1..] + b;
      FirstWhereAppend(a[1..], b, p);
    }
  }

  // ------------------------------------------------------- Skip / Take

  /** `Skip(n)`: a count at or below zero skips nothing. */
  function Skip<T>(s: seq<T>, n: int): (r: seq<T>)
    ensures n <= 0 ==> r == s
    ensures 0 <= n <= |s| ==> r == s[n..]
    ensures n >= |s| ==> r == []
  {
    if n <= 0 then s else if n >= |s| then [] else s[n..]
  }

  /** `Take(n)`: a count at or below zero takes nothing. */
  function Take<T>(s: seq<T>, n: int): (r: seq<T>)
    ensures |r| == if n <= 0 then 0 else if n < |s| then n else |s|
    ensures r == s[..|r|]
  {
    if n <= 0 then [] else if n >= |s| then s else s[..n]
  }

  /** Offset pagination, `Skip(offset).Take(pageSize)`. */
  function Page<T>(s: seq<T>, offset: int, pageSize: int): seq<T> {
    Take(Skip(s, offset), pageSize)
  }

  /** A page is a contiguous run of `s` starting at the offset, at most `pageSize` long. */
  lemma PageShape<T>(s: seq<T>, offset: int, pageSize: int)
    ensures var r := Page(s, offset, pageSize);
      && |r| <= |s|
      && (pageSize <= 0 ==> r == [])
      && (pageSize > 0 ==> |r| <= pageSize)
      && (0 <= offset ==> forall k :: 0 <= k < |r| ==> offset + k < |s| && r[k] == s[offset + k])
      && (offset >= |s| ==> r == [])
      && (0 <= offset <= |s| ==> |r| == PageLength(|s|, offset, pageSize))
  {
  }

  /** How many rows a page at `offset` of a table of `n` rows holds. */
  function PageLength(n: int, offset: int, pageSize: int): int {
    if pageSize <= 0 then 0 else if pageSize < n - offset then pageSize else n - offset
  }

  // ----------------------------------------------------------- OrderBy

  /** `le(a, b)`: `a` may come before `b`. */
  ghost predicate TotalPreorder<T(!new)>(le: (T, T) -> bool) {
    && (forall a, b :: le(a, b) || le(b, a))
    && (forall a, b, c :: le(a, b) && le(b, c) ==> le(a, c))
  }

  predicate SortedBy<T>(s: seq<T>, le: (T, T) -> bool) {
    forall i, j :: 0 <= i < j < |s| ==> le(s[i], s[j])
  }

  /** Inserts `x` before the first element it may precede. */
  function InsertBy<T>(x: T, s: seq<T>, le: (T, T) -> bool): (r: seq<T>)
    ensures |r| == |s| + 1
    ensures multiset(r) == multiset(s) + multiset{x}
  {
    if s == [] || le(x, s[0]) then [x] + s
    else
      assert s == [s[0]] + s[1..];
      [s[0]] + InsertBy(x, s[1..], le)
  }

  /** Insertion sort; stable, since each element goes before its equals that came later. */
  function SortBy<T>(s: seq<T>, le: (T, T) -> bool): (r: seq<T>)
    ensures |r| == |s|
    ensures multiset(r) == multiset(s)
  {
    if s == [] then []
    else
      assert s == [s[0]] + s[1..];
      InsertBy(s[0], SortBy(s[1..], le), le)
  }

  lemma {:induction false} InsertBySorted<T(!new)>(x: T, s: seq<T>, le: (T, T) -> bool)
    requires TotalPreorder(le)
    requires SortedBy(s, le)
    ensures SortedBy(InsertBy(x, s, le), le)
  {
    if s == [] || le(x, s[0]) {
    } else {
      var t := InsertBy(x, s[1..], le);
      InsertBySorted(x, s[1..], le);
      assert le(s[0], x);
      forall k | 0 <= k < |t|
        ensures le(s[0], t[k])
      {
        assert t[k] in multiset(t);
        assert t[k] == x || t[k] in multiset(s[1..]);
        if t[k] != x {
          assert t[k] in s[1..];
        }
      }
    }
  }

  lemma {:induction false} SortBySorted<T(!new)>(s: seq<T>, le: (T, T) -> bool)
    requires TotalPreorder(le)
    ensures SortedBy(SortBy(s, le), le)
  {
    if s != [] {
      SortBySorted(s[1..], le);
      InsertBySorted(s[0], SortBy(s[1..], le), le);
    }
  }

  /** Sorting what is already sorted changes nothing (the sort is stable). */
  lemma {:induction false} SortByOfSorted<T>(s: seq<T>, le: (T, T) -> bool)
    requires SortedBy(s, le)
    ensures SortBy(s, le) == s
  {
    if s != [] {
      SortByOfSorted(s[1..], le);
      assert s == [s[0]] + s[1..];
    }
  }

  /** Every page of a sorted sequence is sorted. */
  lemma PageSorted<T>(s: seq<T>, off: int, pageSize: int, le: (T, T) -> bool)
    requires SortedBy(s, le)
    ensures SortedBy(Page(s, off, pageSize), le)
  {
    var r := Page(s, off, pageSize);
    if off > 0 && off < |s| {
      assert forall k :: 0 <= k < |r| ==> r[k] == s[off + k];
    }
  }

  /** Every element of a page of a sorted copy of `s` is an element of `s`. */
  lemma PageInSorted<T>(s: seq<T>, le: (T, T) -> bool, off: int, pageSize: int)
    ensures forall x | x in Page(SortBy(s, le), off, pageSize) :: x in s
  {
    var sorted := SortBy(s, le);
    forall x | x in Page(sorted, off, pageSize) ensures x in s {
      assert x in sorted;
      assert x in multiset(sorted);
    }
  }

  /** Prefixes of a sorted sequence are sorted. */
  lemma TakeSorted<T>(s: seq<T>, n: int, le: (T, T) -> bool)
    requires SortedBy(s, le)
    ensures SortedBy(Take(s, n), le)
  {
  }

  /**
   * `OrderBy(..).Take(n)`: the first `n` of the sorted copy of `s`, or all of
   * them; sorted, drawn from `s`, and nothing left out ranks before a row kept.
   */
  lemma TopOf<T(!new)>(s: seq<T>, le: (T, T) -> bool, n: int)
    requires TotalPreorder(le)
    ensures var r := Take(SortBy(s, le), n);
      && |r| == (if n <= 0 then 0 else if n < |s| then n else |s|)
      && SortedBy(r, le)
      && multiset(r) <= multiset(s)
      && (n >= |s| ==> multiset(r) == multiset(s))
      && forall x, y | x in multiset(s) - multiset(r) && y in r :: le(y, x)
  {
    var o := SortBy(s, le);
    var r := Take(o, n);
    SortBySorted(s, le);
    TakeSorted(o, n, le);
    var rest := o[|r|..];
    assert o == r + rest;
    assert multiset(o) == multiset(r) + multiset(rest);
    forall x, y | x in multiset(s) - multiset(r) && y in r ensures le(y, x) {
      assert x in multiset(rest);
      var m :| 0 <= m < |rest| && rest[m] == x;
      var i :| 0 <= i < |r| && r[i] == y;
      assert o[i] == y && o[|r| + m] == x;
    }
  }

  /**
   * A page of the sorted copy of `s`: the copy is sorted and a permutation
   * of `s`, the page is its run at the offset, and the page is sorted too.
   */
  lemma SortedPage<T(!new)>(s: seq<T>, le: (T, T) -> bool, off: int, pageSize: int)
    requires TotalPreorder(le)
    ensures var o := SortBy(s, le);
      var r := Page(o, off, pageSize);
      && SortedBy(o, le)
      && multiset(o) == multiset(s)
      && |r| <= |s|
      && |r| <= (if pageSize <= 0 then 0 else pageSize)
      && (0 <= off ==> forall k :: 0 <= k < |r| ==> off + k < |o| && r[k] == o[off + k])
      && (off >= |s| ==> r == [])
      && (0 <= off <= |s| ==> |r| == PageLength(|s|, off, pageSize))
      && SortedBy(r, le)
  {
    SortBySorted(s, le);
    PageShape(SortBy(s, le), off, pageSize);
    PageSorted(SortBy(s, le), off, pageSize, le);
  }

  // ------------------------------------------------------- unique keys

  /** No two rows of `s` share a key: a unique index. */
  predicate UniqueBy<T, K(==)>(s: seq<T>, key: T -> K) {
    forall i, j :: 0 <= i < j < |s| ==> key(s[i]) != key(s[j])
  }

  /** Appending a row with a key not yet present keeps the key unique. */
  lemma AppendUnique<T, K>(s: seq<T>, x: T, key: T -> K)
    requires UniqueBy(s, key)
    requires forall y | y in s :: key(y) != key(x)
    ensures UniqueBy(s + [x], key)
  {
    var r := s + [x];
    forall i, j | 0 <= i < j < |r| ensures key(r[i]) != key(r[j]) {
      if j == |s| {
        assert r[i] in s;
      }
    }
  }

  /** Two different rows with the same key break a unique index. */
  lemma NotUniqueBy<T, K>(s: seq<T>, key: T -> K, x: T, y: T)
    requires x in s && y in s && x != y && key(x) == key(y)
    ensures !UniqueBy(s, key)
  {
    var a :| 0 <= a < |s| && s[a] == x;
    var b :| 0 <= b < |s| && s[b] == y;
    if a < b {
      assert key(s[a]) == key(s[b]);
    } else {
      assert key(s[b]) == key(s[a]);
    }
  }

  /** A repeated key stays repeated when a row is appended. */
  lemma PrefixNotUnique<T, K>(s: seq<T>, x: T, key: T -> K)
    requires !UniqueBy(s, key)
    ensures !UniqueBy(s + [x], key)
  {
    var i, j :| 0 <= i < j < |s| && key(s[i]) == key(s[j]);
    assert (s + [x])[i] == s[i] && (s + [x])[j] == s[j];
  }

  /** Appending a row whose key some row already has breaks a unique index. */
  lemma LastNotUnique<T, K>(s: seq<T>, x: T, key: T -> K, i: int)
    requires 0 <= i < |s| && key(s[i]) == key(x)
    ensures !UniqueBy(s + [x], key)
  {
    assert (s + [x])[i] == s[i] && (s + [x])[|s|] == x;
  }

  /** Deleting rows keeps a unique index unique. */
  lemma {:induction false} FilterUnique<T, K>(s: seq<T>, p: T -> bool, key: T -> K)
    requires UniqueBy(s, key)
    ensures UniqueBy(Filter(s, p), key)
  {
    if s != [] {
      FilterUnique(s[1..], p, key);
      var t := Filter(s[1..], p);
      forall k | 0 <= k < |t|
        ensures key(s[0]) != key(t[k])
      {
        assert t[k] in s[1..];
        var m :| 0 <= m < |s[1..]| && s[1..][m] == t[k];
        assert s[m + 1] == t[k];
      }
    }
  }

  /** Rows whose key is NOT in `ids`: what a `DELETE ... WHERE key IN ids` leaves. */
  function Without<T>(s: seq<T>, key: T -> int, ids: set<int>): (r: seq<T>)
    ensures |r| <= |s|
    ensures forall x | x in r :: x in s && key(x) !in ids
    ensures forall x | x in s && key(x) !in ids :: x in r
  {
    Filter(s, x => key(x) !in ids)
  }

  lemma WithoutUnique<T, K>(s: seq<T>, key: T -> int, ids: set<int>, ukey: T -> K)
    requires UniqueBy(s, ukey)
    ensures UniqueBy(Without(s, key, ids), ukey)
  {
    FilterUnique(s, x => key(x) !in ids, ukey);
  }

  /** Replacing rows by rows with the same key keeps a unique index unique. */
  lemma MapUnique<T, K>(s: seq<T>, f: T -> T, ukey: T -> K)
    requires UniqueBy(s, ukey)
    requires forall x | x in s :: ukey(f(x)) == ukey(x)
    ensures UniqueBy(Map(s, f), ukey)
  {
    var r := Map(s, f);
    forall i, j | 0 <= i < j < |r| ensures ukey(r[i]) != ukey(r[j]) {
      assert ukey(r[i]) == ukey(s[i]) && ukey(r[j]) == ukey(s[j]);
    }
  }

  /** The first row whose key is `k`: `FirstOrDefault(x => x.Key == k)`. */
  function FindBy<T, K(==)>(s: seq<T>, key: T -> K, k: K): (r: Option<T>)
    ensures r.Some? ==> r.value in s && key(r.value) == k
    ensures r.None? <==> forall x | x in s :: key(x) != k
  {
    if s == [] then None
    else if key(s[0]) == k then Some(s[0])
    else
      assert forall x | x in s :: x == s[0] || x in s[1..];
      FindBy(s[1..], key, k)
  }

  /** In a table with a unique key, the lookup by key finds the row holding that key. */
  lemma {:induction false} FindByUnique<T, K>(s: seq<T>, key: T -> K, x: T)
    requires UniqueBy(s, key)
    requires x in s
    ensures FindBy(s, key, key(x)) == Some(x)
  {
    if s[0] != x {
      assert key(s[0]) != key(x) by {
        var i :| 0 <= i < |s| && s[i] == x;
        assert i != 0;
      }
      assert UniqueBy(s[1..], key) by {
        forall i, j | 0 <= i < j < |s[1..]| ensures key(s[1..][i]) != key(s[1..][j]) {
          assert s[1..][i] == s[i + 1] && s[1..][j] == s[j + 1];
        }
      }
      FindByUnique(s[1..], key, x);
    }
  }

  /** An identity value larger than every key in the table. */
  function NextId<T>(s: seq<T>, key: T -> int): (r: int)
    ensures r >= 1
    ensures forall x | x in s :: key(x) < r
  {
    if s == [] then 1
    else
      var n := NextId(s[1..], key);
      assert forall x | x in s :: x == s[0] || x in s[1..];
      if key(s[0]) < n then n else key(s[0]) + 1
  }
}
