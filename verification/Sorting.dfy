/**
 The array operations the runtime leans on: the stable sort and the filter of the host
 language, with the facts about them that the other modules use.
 */
module Sorting {

  ghost predicate TotalPreorder<T(!new)>(le: (T, T) -> bool) {
    && (forall a, b :: le(a, b) || le(b, a))
    && (forall a, b, c :: le(a, b) && le(b, c) ==> le(a, c))
  }

  ghost predicate Sorted<T(!new)>(s: seq<T>, le: (T, T) -> bool) {
    forall i, j :: 0 <= i < j < |s| ==> le(s[i], s[j])
  }

  /** Sorted with no two elements level with each other. */
  ghost predicate StrictlySorted<T(!new)>(s: seq<T>, le: (T, T) -> bool) {
    forall i, j :: 0 <= i < j < |s| ==> le(s[i], s[j]) && !le(s[j], s[i])
  }

  function Filter<T(!new)>(s: seq<T>, p: T -> bool): (r: seq<T>)
    ensures |r| <= |s|
    ensures forall x :: x in r <==> x in s && p(x)
  {
    if s == [] then [] else (if p(s[0]) then [s[0]] else []) + Filter(s[1..], p)
  }

  /** Places `x`, which came before everything in `s`, ahead of the elements level with it. */
  function Insert<T>(x: T, s: seq<T>, le: (T, T) -> bool): seq<T> {
    if s == [] then [x]
    else if le(x, s[0]) then [x] + s
    else [s[0]] + Insert(x, s[1..], le)
  }

  function StableSort<T>(s: seq<T>, le: (T, T) -> bool): seq<T> {
    if s == [] then [] else Insert(s[0], StableSort(s[1..], le), le)
  }

  lemma {:induction false} InsertPermutes<T>(x: T, s: seq<T>, le: (T, T) -> bool)
    ensures multiset(Insert(x, s, le)) == multiset{x} + multiset(s)
  {
    if s != [] && !le(x, s[0]) {
      InsertPermutes(x, s[1..], le);
      assert s == [s[0]] + s[1..];
    }
  }

  lemma {:induction false} SortPermutes<T(!new)>(s: seq<T>, le: (T, T) -> bool)
    ensures multiset(StableSort(s, le)) == multiset(s)
    ensures |StableSort(s, le)| == |s|
    ensures forall x :: x in StableSort(s, le) <==> x in s
  {
    if s != [] {
      SortPermutes(s[1..], le);
      InsertPermutes(s[0], StableSort(s[1..], le), le);
      assert s == [s[0]] + s[1..];
    }
    assert |multiset(StableSort(s, le))| == |StableSort(s, le)| && |multiset(s)| == |s|;
    forall x ensures x in StableSort(s, le) <==> x in s {
      assert x in StableSort(s, le) <==> x in multiset(StableSort(s, le));
      assert x in s <==> x in multiset(s);
    }
  }

  lemma {:induction false} InsertSorted<T(!new)>(x: T, s: seq<T>, le: (T, T) -> bool)
    requires TotalPreorder(le) && Sorted(s, le)
    ensures Sorted(Insert(x, s, le), le)
  {
    if s != [] && !le(x, s[0]) {
      InsertSorted(x, s[1..], le);
      InsertPermutes(x, s[1..], le);
      var t := Insert(x, s[1..], le);
      forall k | 0 <= k < |t| ensures le(s[0], t[k]) {
        assert t[k] in multiset(t);
      }
    }
  }

  lemma {:induction false} SortSorts<T(!new)>(s: seq<T>, le: (T, T) -> bool)
    requires TotalPreorder(le)
    ensures Sorted(StableSort(s, le), le)
  {
    if s != [] {
      SortSorts(s[1..], le);
      InsertSorted(s[0], StableSort(s[1..], le), le);
    }
  }

  /** The first element of a stable sort is the first of the elements that come before all others. */
  lemma {:induction false} SortFirst<T(!new)>(s: seq<T>, le: (T, T) -> bool) returns (i: nat)
    requires TotalPreorder(le) && s != []
    ensures StableSort(s, le) != [] && i < |s| && s[i] == StableSort(s, le)[0]
    ensures forall j :: 0 <= j < |s| ==> le(s[i], s[j]) && (j < i ==> !le(s[j], s[i]))
  {
    i := 0;
    if |s| > 1 {
      var k := SortFirst(s[1..], le);
      if !le(s[0], s[1..][k]) {
        i := k + 1;
      }
      forall j | 0 <= j < |s| ensures le(s[i], s[j]) && (j < i ==> !le(s[j], s[i])) {
        if j > 0 {
          assert s[1..][j - 1] == s[j];
        }
      }
    }
  }

  lemma {:induction false} FilterOfSorted<T(!new)>(s: seq<T>, p: T -> bool, le: (T, T) -> bool)
    requires Sorted(s, le)
    ensures Sorted(Filter(s, p), le)
  {
    if s != [] {
      FilterOfSorted(s[1..], p, le);
      var t := Filter(s[1..], p);
      forall k | 0 <= k < |t| ensures le(s[0], t[k]) {
        assert t[k] in s[1..];
      }
    }
  }

  lemma {:induction false} FilterInsert<T(!new)>(x: T, s: seq<T>, p: T -> bool, le: (T, T) -> bool)
    requires TotalPreorder(le) && Sorted(s, le)
    ensures Filter(Insert(x, s, le), p)
         == if p(x) then Insert(x, Filter(s, p), le) else Filter(s, p)
  {
    if s == [] {
    } else if le(x, s[0]) {
      assert ([x] + s)[1..] == s;
      var f := Filter(s, p);
      if p(x) && f != [] {
        assert f[0] in s;
        assert le(x, f[0]);
      }
    } else {
      FilterInsert(x, s[1..], p, le);
      var f := Filter(s[1..], p);
      assert ([s[0]] + Insert(x, s[1..], le))[1..] == Insert(x, s[1..], le);
      assert ([s[0]] + f)[1..] == f && [] + f == f && [] + Insert(x, f, le) == Insert(x, f, le);
    }
  }

  /** Stability: filtering before or after the sort gives the same sequence, ties included. */
  lemma {:induction false} FilterCommutesWithSort<T(!new)>(s: seq<T>, p: T -> bool, le: (T, T) -> bool)
    requires TotalPreorder(le)
    ensures Filter(StableSort(s, le), p) == StableSort(Filter(s, p), le)
  {
    if s != [] {
      FilterCommutesWithSort(s[1..], p, le);
      SortSorts(s[1..], le);
      FilterInsert(s[0], StableSort(s[1..], le), p, le);
      var f := Filter(s[1..], p);
      assert ([s[0]] + f)[1..] == f && [] + f == f;
    }
  }

  predicate LevelWith<T>(x: T, y: T, le: (T, T) -> bool) {
    le(x, y) && le(y, x)
  }

  function Level<T>(x: T, le: (T, T) -> bool): T -> bool {
    y => LevelWith(x, y, le)
  }

  lemma {:induction false} SortOfLevel<T(!new)>(s: seq<T>, le: (T, T) -> bool)
    requires forall i, j :: 0 <= i < |s| && 0 <= j < |s| ==> le(s[i], s[j])
    ensures StableSort(s, le) == s
  {
    if s != [] {
      SortOfLevel(s[1..], le);
      assert s == [s[0]] + s[1..];
      assert |s| > 1 ==> s[1..][0] == s[1];
    }
  }

  /** Elements level with each other keep the order they had. */
  lemma SortIsStable<T(!new)>(s: seq<T>, x: T, le: (T, T) -> bool)
    requires TotalPreorder(le)
    ensures Filter(StableSort(s, le), Level(x, le)) == Filter(s, Level(x, le))
  {
    FilterCommutesWithSort(s, Level(x, le), le);
    var f := Filter(s, Level(x, le));
    forall i, j | 0 <= i < |f| && 0 <= j < |f| ensures le(f[i], f[j]) {
      assert f[i] in f && f[j] in f;
      assert LevelWith(x, f[i], le) && LevelWith(x, f[j], le);
    }
    SortOfLevel(f, le);
  }

  lemma {:induction false} FilterAppend<T(!new)>(a: seq<T>, b: seq<T>, p: T -> bool)
    ensures Filter(a + b, p) == Filter(a, p) + Filter(b, p)
  {
    if a == [] {
      assert a + b == b;
    } else {
      var first := if p(a[0]) then [a[0]] else [];
      calc {
        Filter(a + b, p);
        { assert (a + b)[0] == a[0] && (a + b)[1..] == a[1..] + b; }
        first + Filter(a[1..] + b, p);
        { FilterAppend(a[1..], b, p); }
        first + (Filter(a[1..], p) + Filter(b, p));
        (first + Filter(a[1..], p)) + Filter(b, p);
      }
    }
  }

  lemma {:induction false} FilterAll<T(!new)>(s: seq<T>, p: T -> bool)
    requires forall x :: x in s ==> p(x)
    ensures Filter(s, p) == s
  {
    if s != [] {
      FilterAll(s[1..], p);
    }
  }

  lemma {:induction false} FilterNone<T(!new)>(s: seq<T>, p: T -> bool)
    requires forall x :: x in s ==> !p(x)
    ensures Filter(s, p) == []
  {
    if s != [] {
      FilterNone(s[1..], p);
    }
  }

  /** `at` are the positions in `s`, in order, of exactly the elements that satisfy `p`. */
  ghost predicate PositionsOf<T(!new)>(s: seq<T>, p: T -> bool, at: seq<nat>) {
    && (forall i, j :: 0 <= i < j < |at| ==> at[i] < at[j])
    && (forall i :: 0 <= i < |at| ==> at[i] < |s| && p(s[at[i]]))
    && (forall k :: 0 <= k < |s| && p(s[k]) ==> k in at)
  }

  lemma NoPosition<T(!new)>(s: seq<T>, p: T -> bool, at: seq<nat>)
    requires PositionsOf(s, p, at) && forall x :: x in s ==> !p(x)
    ensures at == []
  {
    var first := if at == [] then 0 else at[0];
    assert first < |s| ==> s[first] in s;
  }

  function UpFrom(from: nat, n: nat): (r: seq<nat>)
    ensures |r| == n && forall i :: 0 <= i < n ==> r[i] == from + i
  {
    if n == 0 then [] else UpFrom(from, n - 1) + [from + n - 1]
  }

  lemma PositionsUpFrom<T(!new)>(s: seq<T>, p: T -> bool, first: nat, n: nat)
    requires |s| == first + n
    requires forall i :: 0 <= i < |s| ==> (p(s[i]) <==> i >= first)
    ensures PositionsOf(s, p, UpFrom(first, n))
  {
    forall k | 0 <= k < |s| && p(s[k]) ensures k in UpFrom(first, n) {
      assert UpFrom(first, n)[k - first] == k;
    }
  }

  lemma AddPosition<T(!new)>(s: seq<T>, p: T -> bool, front: seq<nat>)
    requires s != [] && p(s[|s| - 1]) && PositionsOf(s[..|s| - 1], p, front)
    ensures PositionsOf(s, p, front + [|s| - 1])
  {
    var n := |s| - 1;
    var at := front + [n];
    forall i | 0 <= i < |at| ensures at[i] < |s| && p(s[at[i]]) {
      assert i < |front| ==> at[i] == front[i] && s[..n][front[i]] == s[front[i]];
    }
    forall k | 0 <= k < |s| && p(s[k]) ensures k in at {
      assert k < n ==> s[..n][k] == s[k] && k in front;
      assert at[|front|] == n;
    }
  }

  lemma SkipPosition<T(!new)>(s: seq<T>, p: T -> bool, at: seq<nat>)
    requires s != [] && !p(s[|s| - 1]) && PositionsOf(s[..|s| - 1], p, at)
    ensures PositionsOf(s, p, at)
  {
    var n := |s| - 1;
    forall i | 0 <= i < |at| ensures at[i] < |s| && p(s[at[i]]) {
      assert s[..n][at[i]] == s[at[i]];
    }
    forall k | 0 <= k < |s| && p(s[k]) ensures k in at {
      assert s[..n][k] == s[k];
    }
  }

  lemma {:induction false} PositionsExist<T(!new)>(s: seq<T>, p: T -> bool) returns (at: seq<nat>)
    ensures PositionsOf(s, p, at)
  {
    if s == [] {
      at := [];
    } else {
      at := PositionsExist(s[..|s| - 1], p);
      if p(s[|s| - 1]) {
        AddPosition(s, p, at);
        at := at + [|s| - 1];
      } else {
        SkipPosition(s, p, at);
      }
    }
  }

  lemma LastPosition<T(!new)>(s: seq<T>, p: T -> bool, at: seq<nat>)
    requires s != [] && PositionsOf(s, p, at) && p(s[|s| - 1])
    ensures at != [] && at[|at| - 1] == |s| - 1
    ensures PositionsOf(s[..|s| - 1], p, at[..|at| - 1])
  {
    var n, last := |s| - 1, |at| - 1;
    var k :| 0 <= k < |at| && at[k] == n;
    assert k == last;
    forall m: nat | m < n && p(s[..n][m])
      ensures m in at[..last]
    {
      assert s[m] == s[..n][m] && m in at;
      var i :| 0 <= i < |at| && at[i] == m;
      assert at[..last][i] == m;
    }
  }

  lemma FilterLast<T(!new)>(s: seq<T>, p: T -> bool)
    requires s != []
    ensures p(s[|s| - 1]) ==> Filter(s, p) == Filter(s[..|s| - 1], p) + [s[|s| - 1]]
    ensures !p(s[|s| - 1]) ==> Filter(s, p) == Filter(s[..|s| - 1], p)
  {
    var front, last := s[..|s| - 1], [s[|s| - 1]];
    assert s == front + last;
    FilterAppend(front, last, p);
    if p(last[0]) {
      FilterAll(last, p);
    } else {
      FilterNone(last, p);
    }
  }

  /** `f` are the elements of `s` at the positions `at`, in order. */
  ghost predicate ElementsAt<T>(s: seq<T>, at: seq<nat>, f: seq<T>) {
    |f| == |at| && forall i :: 0 <= i < |at| ==> at[i] < |s| && f[i] == s[at[i]]
  }

  /** Filtering keeps the elements at exactly those positions, in order. */
  lemma {:induction false} FilterAt<T(!new)>(s: seq<T>, p: T -> bool, at: seq<nat>)
    requires PositionsOf(s, p, at)
    ensures ElementsAt(s, at, Filter(s, p))
  {
    if s == [] {
      NoPosition(s, p, at);
    } else {
      var n, last := |s| - 1, |at| - 1;
      FilterLast(s, p);
      if p(s[n]) {
        LastPosition(s, p, at);
        FilterAt(s[..n], p, at[..last]);
        OneMore(s, at, Filter(s[..n], p));
      } else {
        NotLastPosition(s, p, at);
        FilterAt(s[..n], p, at);
        NoMore(s, at, Filter(s[..n], p));
      }
    }
  }

  lemma OneMore<T>(s: seq<T>, at: seq<nat>, f: seq<T>)
    requires s != [] && at != [] && at[|at| - 1] == |s| - 1 && ElementsAt(s[..|s| - 1], at[..|at| - 1], f)
    ensures ElementsAt(s, at, f + [s[|s| - 1]])
  {
    var g := f + [s[|s| - 1]];
    forall i | 0 <= i < |at| ensures at[i] < |s| && g[i] == s[at[i]] {
      assert i < |at| - 1 ==> at[..|at| - 1][i] == at[i];
    }
  }

  lemma NoMore<T>(s: seq<T>, at: seq<nat>, f: seq<T>)
    requires s != [] && ElementsAt(s[..|s| - 1], at, f)
    ensures ElementsAt(s, at, f)
  {
  }

  lemma NotLastPosition<T(!new)>(s: seq<T>, p: T -> bool, at: seq<nat>)
    requires s != [] && PositionsOf(s, p, at) && !p(s[|s| - 1])
    ensures PositionsOf(s[..|s| - 1], p, at)
  {
    var n := |s| - 1;
    assert forall k :: 0 <= k < n ==> s[..n][k] == s[k];
    assert forall i :: 0 <= i < |at| ==> at[i] < n;
  }

  function Mapped<T, U>(s: seq<T>, f: T -> U): (r: seq<U>)
    ensures |r| == |s| && forall i :: 0 <= i < |s| ==> r[i] == f(s[i])
  {
    if s == [] then [] else [f(s[0])] + Mapped(s[1..], f)
  }

  lemma StrictlySortedAppend<T(!new)>(s: seq<T>, x: T, le: (T, T) -> bool)
    requires StrictlySorted(s, le) && forall k :: 0 <= k < |s| ==> le(s[k], x) && !le(x, s[k])
    ensures StrictlySorted(s + [x], le)
  {
  }

  /** A strictly sorted sequence is determined by its elements. */
  lemma {:induction false} StrictlySortedUnique<T(!new)>(a: seq<T>, b: seq<T>, le: (T, T) -> bool)
    requires StrictlySorted(a, le) && StrictlySorted(b, le)
    requires forall x :: x in a <==> x in b
    ensures a == b
  {
    assert b != [] ==> b[0] in b;
    if a == [] {
      assert forall x :: x !in b;
    } else {
      assert a[0] in b;
      assert b[0] in a;
      assert a[0] == b[0];
      forall x ensures x in a[1..] <==> x in b[1..] {
        if x in a[1..] {
          assert x in b;
          assert x != b[0];
        }
        if x in b[1..] {
          assert x in a;
          assert x != a[0];
        }
      }
      StrictlySortedUnique(a[1..], b[1..], le);
      assert a == [a[0]] + a[1..] && b == [b[0]] + b[1..];
    }
  }

  /** Cutting a sorted sequence separates the elements by rank and loses none. */
  lemma CutOfSorted<T(!new)>(s: seq<T>, n: nat, le: (T, T) -> bool)
    requires Sorted(s, le) && n <= |s|
    ensures Sorted(s[..n], le)
    ensures multiset(s[..n]) + multiset(s[n..]) == multiset(s)
    ensures forall x, y :: x in s[..n] && y in s[n..] ==> le(x, y)
  {
    assert s == s[..n] + s[n..];
  }

  // ----- elements told apart by a key

  ghost predicate DistinctBy<T, K>(s: seq<T>, key: T -> K) {
    forall i, j :: 0 <= i < j < |s| ==> key(s[i]) != key(s[j])
  }

  lemma {:induction false} OccursOnce<T(!new), K>(s: seq<T>, key: T -> K, x: T)
    requires DistinctBy(s, key)
    ensures multiset(s)[x] <= 1
  {
    if s != [] {
      OccursOnce(s[1..], key, x);
      assert s == [s[0]] + s[1..];
      if s[0] == x {
        assert x !in s[1..];
      }
    }
  }

  lemma OccursTwice<T>(s: seq<T>, i: nat, j: nat)
    requires i < j < |s| && s[i] == s[j]
    ensures multiset(s)[s[i]] >= 2
  {
    assert s == s[..j] + [s[j]] + s[j + 1..];
    assert s[i] in s[..j];
    assert multiset(s[..j])[s[i]] >= 1;
  }

  /** A permutation of elements with distinct keys has distinct keys. */
  lemma PermutationDistinct<T(!new), K>(a: seq<T>, b: seq<T>, key: T -> K)
    requires DistinctBy(a, key) && multiset(a) == multiset(b)
    ensures DistinctBy(b, key)
  {
    forall i, j | 0 <= i < j < |b| ensures key(b[i]) != key(b[j]) {
      assert b[i] in multiset(b) && b[j] in multiset(b);
      assert b[i] in a && b[j] in a;
      if b[i] == b[j] {
        OccursTwice(b, i, j);
        OccursOnce(a, key, b[i]);
        assert false;
      }
    }
  }

  lemma {:induction false} FilterDistinct<T(!new), K>(s: seq<T>, p: T -> bool, key: T -> K)
    requires DistinctBy(s, key)
    ensures DistinctBy(Filter(s, p), key)
  {
    if s != [] {
      FilterDistinct(s[1..], p, key);
      var rest := Filter(s[1..], p);
      forall k | 0 <= k < |rest| ensures key(rest[k]) != key(s[0]) {
        assert rest[k] in s[1..];
      }
    }
  }
}
