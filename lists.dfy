/**
 * List operations shared by the controllers and the pages: JavaScript's
 * `filter`, `filter(...).length`, `slice(0, n)`, `[...new Set(xs)]`, an
 * `ORDER BY ... DESC` and a table scan in primary-key order.
 */
module Lists {

  /** `s.filter(p)`. */
  function Filter<T(!new)>(s: seq<T>, p: T -> bool): (r: seq<T>)
    ensures |r| <= |s|
    ensures forall x :: x in r <==> x in s && p(x)
    ensures forall i :: 0 <= i < |r| ==> p(r[i])
    ensures forall x :: multiset(r)[x] == if p(x) then multiset(s)[x] else 0
  {
    if s == [] then []
    else
      var rest := Filter(s[1..], p);
      assert s == [s[0]] + s[1..];
      if p(s[0]) then [s[0]] + rest else rest
  }

  /** `s.filter(p).length`. */
  function Count<T(!new)>(s: seq<T>, p: T -> bool): nat {
    |Filter(s, p)|
  }

  /** `r` is `s` with some elements dropped and the rest kept in order. */
  predicate IsSublist<T(==)>(r: seq<T>, s: seq<T>) {
    if r == [] then true
    else if s == [] then false
    else if r[0] == s[0] then IsSublist(r[1..], s[1..])
    else IsSublist(r, s[1..])
  }

  lemma {:induction false} FilterIsSublist<T(!new)>(s: seq<T>, p: T -> bool)
    ensures IsSublist(Filter(s, p), s)
  {
    if s != [] {
      FilterIsSublist(s[1..], p);
      if p(s[0]) {
        assert Filter(s, p)[1..] == Filter(s[1..], p);
      } else {
        SublistOfTail(Filter(s, p), s);
      }
    }
  }

  lemma {:induction false} SublistOfTail<T>(r: seq<T>, s: seq<T>)
    requires s != [] && IsSublist(r, s[1..])
    ensures IsSublist(r, s)
    decreases 2 * |s|
  {
    if r != [] && r[0] == s[0] {
      SublistDropHead(r, s[1..]);
    }
  }

  lemma {:induction false} SublistDropHead<T>(r: seq<T>, s: seq<T>)
    requires r != [] && IsSublist(r, s)
    ensures IsSublist(r[1..], s)
    decreases 2 * |s| + 1
  {
    if r[0] == s[0] {
      if r[1..] != [] {
        SublistOfTail(r[1..], s);
      }
    } else {
      SublistDropHead(r, s[1..]);
      if r[1..] != [] {
        SublistOfTail(r[1..], s);
      }
    }
  }

  /** Every list is a sub-list of itself. */
  lemma {:induction false} SublistReflexive<T>(s: seq<T>)
    ensures IsSublist(s, s)
  {
    if s != [] {
      SublistReflexive(s[1..]);
    }
  }

  /** A sub-list of a sub-list is a sub-list. */
  lemma {:induction false} SublistTransitive<T>(a: seq<T>, b: seq<T>, c: seq<T>)
    requires IsSublist(a, b) && IsSublist(b, c)
    ensures IsSublist(a, c)
    decreases |c|
  {
    if a != [] {
      if b[0] == c[0] {
        if a[0] == b[0] {
          SublistTransitive(a[1..], b[1..], c[1..]);
        } else {
          SublistTransitive(a, b[1..], c[1..]);
          SublistOfTail(a, c);
        }
      } else {
        SublistTransitive(a, b, c[1..]);
        SublistOfTail(a, c);
      }
    }
  }

  /** A sub-list is never longer than the list it is taken from. */
  lemma {:induction false} SublistLength<T>(r: seq<T>, s: seq<T>)
    requires IsSublist(r, s)
    ensures |r| <= |s|
  {
    if r != [] {
      if r[0] == s[0] {
        SublistLength(r[1..], s[1..]);
      } else {
        SublistLength(r, s[1..]);
      }
    }
  }

  /** Filtering with a predicate that holds everywhere keeps the whole list. */
  lemma {:induction false} FilterAll<T(!new)>(s: seq<T>, p: T -> bool)
    requires forall x :: x in s ==> p(x)
    ensures Filter(s, p) == s
  {
    if s != [] {
      FilterAll(s[1..], p);
    }
  }

  /** Filtering twice is filtering once with the conjunction. */
  lemma {:induction false} FilterFilter<T(!new)>(s: seq<T>, p: T -> bool, q: T -> bool)
    ensures Filter(Filter(s, p), q) == Filter(s, x => p(x) && q(x))
  {
    if s != [] {
      FilterFilter(s[1..], p, q);
    }
  }

  /** Predicates that agree on every element filter alike. */
  lemma {:induction false} FilterCongruent<T(!new)>(s: seq<T>, p: T -> bool, q: T -> bool)
    requires forall x :: x in s ==> p(x) == q(x)
    ensures Filter(s, p) == Filter(s, q)
  {
    if s != [] {
      FilterCongruent(s[1..], p, q);
    }
  }

  /** Filtering commutes with concatenation. */
  lemma {:induction false} FilterAppend<T(!new)>(a: seq<T>, b: seq<T>, p: T -> bool)
    ensures Filter(a + b, p) == Filter(a, p) + Filter(b, p)
  {
    if a == [] {
      assert a + b == b;
    } else {
      assert (a + b)[1..] == a[1..] + b;
      FilterAppend(a[1..], b, p);
    }
  }

  /** A count never exceeds the length of the list. */
  lemma CountBound<T(!new)>(s: seq<T>, p: T -> bool)
    ensures Count(s, p) <= |s|
  {
  }

  // ---------------------------------------------------------------------
  // Newest first: ORDER BY createdAt DESC

  /** Every element is at least as recent as every later one. */
  predicate NewestFirst<T>(s: seq<T>, at: T -> int) {
    forall i, j :: 0 <= i < j < |s| ==> at(s[i]) >= at(s[j])
  }

  function InsertNewestFirst<T>(x: T, s: seq<T>, at: T -> int): (r: seq<T>)
    requires NewestFirst(s, at)
    ensures NewestFirst(r, at)
    ensures multiset(r) == multiset(s) + multiset{x}
    ensures |r| == |s| + 1
  {
    if s == [] || at(x) >= at(s[0]) then
      ConsNewestFirst(x, s, at);
      [x] + s
    else
      var rest := InsertNewestFirst(x, s[1..], at);
      InsertStep(x, s, rest, at);
      [s[0]] + rest
  }

  /** An element no older than the head of a newest-first list can go in front of it. */
  lemma ConsNewestFirst<T>(y: T, t: seq<T>, at: T -> int)
    requires NewestFirst(t, at) && (t == [] || at(y) >= at(t[0]))
    ensures NewestFirst([y] + t, at)
  {
    var r := [y] + t;
    forall i, j | 0 <= i < j < |r| ensures at(r[i]) >= at(r[j]) {
      assert r[j] == t[j - 1];
      if i > 0 {
        assert r[i] == t[i - 1];
      } else {
        assert at(t[0]) >= at(t[j - 1]) || j == 1;
      }
    }
  }

  /** The recursive case of the insertion: the head stays in front of the insertion into the tail. */
  lemma InsertStep<T>(x: T, s: seq<T>, rest: seq<T>, at: T -> int)
    requires s != [] && NewestFirst(s, at) && at(x) < at(s[0])
    requires NewestFirst(rest, at) && multiset(rest) == multiset(s[1..]) + multiset{x}
    ensures NewestFirst([s[0]] + rest, at)
    ensures multiset([s[0]] + rest) == multiset(s) + multiset{x}
  {
    assert s == [s[0]] + s[1..];
    HeadBoundsRest(x, s, rest, at);
    ConsNewestFirst(s[0], rest, at);
  }

  lemma HeadBoundsRest<T>(x: T, s: seq<T>, rest: seq<T>, at: T -> int)
    requires s != [] && NewestFirst(s, at) && at(x) < at(s[0])
    requires multiset(rest) == multiset(s[1..]) + multiset{x}
    ensures forall i :: 0 <= i < |rest| ==> at(s[0]) >= at(rest[i])
  {
    forall i | 0 <= i < |rest| ensures at(s[0]) >= at(rest[i]) {
      assert rest[i] in multiset(rest);
      if rest[i] != x {
        assert rest[i] in multiset(s[1..]);
        var j :| 0 <= j < |s[1..]| && s[1..][j] == rest[i];
        assert s[j + 1] == rest[i];
      }
    }
  }

  /** The list sorted by `at`, most recent first, ties in input order. */
  function SortNewestFirst<T(!new)>(s: seq<T>, at: T -> int): (r: seq<T>)
    ensures NewestFirst(r, at)
    ensures multiset(r) == multiset(s)
    ensures |r| == |s|
    ensures forall x :: x in r <==> x in s
  {
    if s == [] then []
    else
      assert s == [s[0]] + s[1..];
      var r := InsertNewestFirst(s[0], SortNewestFirst(s[1..], at), at);
      assert forall x :: x in r <==> x in multiset(r);
      assert forall x :: x in s <==> x in multiset(s);
      r
  }

  /** Counting is insensitive to order: lists with the same elements, each as often, have the same counts. */
  lemma CountPermutation<T(!new)>(a: seq<T>, b: seq<T>, p: T -> bool)
    requires multiset(a) == multiset(b)
    ensures Count(a, p) == Count(b, p)
  {
    var fa := Filter(a, p);
    var fb := Filter(b, p);
    assert multiset(fa) == multiset(fb) by {
      forall x ensures multiset(fa)[x] == multiset(fb)[x] { }
    }
    assert |fa| == |multiset(fa)| && |fb| == |multiset(fb)|;
  }

  /** Sorting before counting changes no count. */
  lemma CountAfterSort<T(!new)>(s: seq<T>, at: T -> int, p: T -> bool)
    ensures Count(SortNewestFirst(s, at), p) == Count(s, p)
  {
    CountPermutation(SortNewestFirst(s, at), s, p);
  }

  lemma CountCons<T(!new)>(y: T, t: seq<T>, p: T -> bool)
    ensures Count([y] + t, p) == (if p(y) then 1 else 0) + Count(t, p)
  {
    assert ([y] + t)[1..] == t;
  }

  /** The first `n` of a newest-first list are the `n` most recent: none left out is newer. */
  lemma {:induction false} TakeNewest<T>(s: seq<T>, at: T -> int, n: nat)
    requires NewestFirst(s, at)
    ensures var k := if n < |s| then n else |s|;
      |s[..k]| <= n && NewestFirst(s[..k], at)
      && forall i, j :: 0 <= i < k <= j < |s| ==> at(s[i]) >= at(s[j])
  {
  }

  // ---------------------------------------------------------------------
  // De-duplication in first-occurrence order: [...new Set(s)]

  /** The position of the first occurrence of `x` in `s`. */
  function FirstIndex<T(==)>(s: seq<T>, x: T): (i: nat)
    requires x in s
    ensures i < |s| && s[i] == x && x !in s[..i]
  {
    if s[0] == x then 0 else 1 + FirstIndex(s[1..], x)
  }

  predicate NoDuplicates<T(==)>(s: seq<T>) {
    forall i, j :: 0 <= i < j < |s| ==> s[i] != s[j]
  }

  /** The elements of `r` occur in `s`, and their first occurrences there come in the order of `r`. */
  predicate InFirstOccurrenceOrder<T(==)>(r: seq<T>, s: seq<T>) {
    forall i, j :: 0 <= i < j < |r| ==> r[i] in s && r[j] in s && FirstIndex(s, r[i]) < FirstIndex(s, r[j])
  }

  /** `[...new Set(s)]`: each distinct element once, in order of first occurrence. */
  function Distinct<T(==,!new)>(s: seq<T>): (r: seq<T>)
    ensures forall x :: x in r <==> x in s
    ensures NoDuplicates(r)
    ensures InFirstOccurrenceOrder(r, s)
  {
    if s == [] then []
    else
      var r := Distinct(s[..|s| - 1]);
      DistinctStep(s, r);
      if s[|s| - 1] in r then r else r + [s[|s| - 1]]
  }

  /** One step of Distinct: the last element is appended exactly when it is new. */
  lemma DistinctStep<T>(s: seq<T>, r: seq<T>)
    requires s != []
    requires forall x :: x in r <==> x in s[..|s| - 1]
    requires NoDuplicates(r)
    requires InFirstOccurrenceOrder(r, s[..|s| - 1])
    ensures var r' := if s[|s| - 1] in r then r else r + [s[|s| - 1]];
      (forall x :: x in r' <==> x in s) && NoDuplicates(r') && InFirstOccurrenceOrder(r', s)
  {
    var init := s[..|s| - 1];
    var last := s[|s| - 1];
    assert s == init + [last];
    forall x | x in init
      ensures FirstIndex(s, x) == FirstIndex(init, x)
    {
      FirstIndexOfPrefix(s, init, x);
    }
    if last !in r {
      assert last !in init;
      assert FirstIndex(s, last) == |s| - 1 by {
        var k := FirstIndex(s, last);
        assert s[k] == last;
      }
      var r' := r + [last];
      forall i, j | 0 <= i < j < |r'|
        ensures r'[i] in s && r'[j] in s && FirstIndex(s, r'[i]) < FirstIndex(s, r'[j]) && r'[i] != r'[j]
      {
        assert r'[i] == r[i];
        assert r[i] in r;
        if j < |r| {
          assert r'[j] == r[j];
        } else {
          assert r'[j] == last;
        }
      }
    } else {
      forall i, j | 0 <= i < j < |r|
        ensures r[i] in s && r[j] in s && FirstIndex(s, r[i]) < FirstIndex(s, r[j])
      {
        assert r[i] in init && r[j] in init;
      }
    }
  }

  lemma FirstIndexOfPrefix<T>(s: seq<T>, pre: seq<T>, x: T)
    requires |pre| <= |s| && x in pre && pre == s[..|pre|]
    ensures x in s && FirstIndex(s, x) == FirstIndex(pre, x)
  {
    var i := FirstIndex(pre, x);
    assert s[i] == x;
    var j := FirstIndex(s, x);
    assert s[..i] == pre[..i];
  }

  // ---------------------------------------------------------------------
  // A table scan: the rows of a keyed table in increasing key order

  predicate Increasing(ks: seq<nat>) {
    forall i, j :: 0 <= i < j < |ks| ==> ks[i] < ks[j]
  }

  /** The keys of `m` below `n`, in increasing order. */
  function KeysBelow<T>(m: map<nat, T>, n: nat): (ks: seq<nat>)
    ensures Increasing(ks)
    ensures forall k :: k in ks <==> k in m && k < n
    ensures forall i :: 0 <= i < |ks| ==> ks[i] < n
  {
    if n == 0 then []
    else if n - 1 in m then KeysBelow(m, n - 1) + [n - 1]
    else KeysBelow(m, n - 1)
  }

  /** The values at the given keys, in the given order. */
  function ValuesAt<T>(m: map<nat, T>, ks: seq<nat>): (r: seq<T>)
    requires forall k :: k in ks ==> k in m
    ensures |r| == |ks|
    ensures forall i :: 0 <= i < |ks| ==> r[i] == m[ks[i]]
  {
    if ks == [] then [] else [m[ks[0]]] + ValuesAt(m, ks[1..])
  }

  /**
   * Every row of a table whose keys all lie below `n`, in key order:
   * `x` is scanned exactly when some key maps to it.
   */
  function Scan<T(==,!new)>(m: map<nat, T>, n: nat): (r: seq<T>)
    requires forall k :: k in m ==> k < n
    ensures forall x :: x in r <==> x in m.Values
    ensures |r| == |m.Keys|
  {
    var ks := KeysBelow(m, n);
    var r := ValuesAt(m, ks);
    assert forall x :: x in m.Values ==> x in r by {
      forall x | x in m.Values ensures x in r {
        var k :| k in m && m[k] == x;
        var i :| 0 <= i < |ks| && ks[i] == k;
        assert r[i] == x;
      }
    }
    IncreasingCard(ks, m.Keys);
    r
  }

  /** When no two keys hold the same row, the scan lists each row exactly once. */
  lemma ScanOnce<T(!new)>(m: map<nat, T>, n: nat)
    requires forall k :: k in m ==> k < n
    requires forall a, b :: a in m && b in m && m[a] == m[b] ==> a == b
    ensures forall x :: multiset(Scan(m, n))[x] == if x in m.Values then 1 else 0
  {
    var ks := KeysBelow(m, n);
    var r := ValuesAt(m, ks);
    assert r == Scan(m, n);
    assert NoDuplicates(r) by {
      forall i, j | 0 <= i < j < |r| ensures r[i] != r[j] {
        assert ks[i] < ks[j];
      }
    }
    forall x ensures multiset(r)[x] == if x in m.Values then 1 else 0 {
      NoDuplicatesAtMostOnce(r, x);
    }
  }

  /** A list without repeated elements holds each element at most once. */
  lemma {:induction false} NoDuplicatesAtMostOnce<T>(s: seq<T>, x: T)
    requires NoDuplicates(s)
    ensures multiset(s)[x] <= 1
  {
    if s != [] {
      assert s == [s[0]] + s[1..];
      assert NoDuplicates(s[1..]) by {
        forall i, j | 0 <= i < j < |s[1..]| ensures s[1..][i] != s[1..][j] {
          assert s[1..][i] == s[i + 1] && s[1..][j] == s[j + 1];
        }
      }
      NoDuplicatesAtMostOnce(s[1..], x);
      if x == s[0] {
        assert x !in s[1..] by {
          forall j | 0 <= j < |s[1..]| ensures s[1..][j] != x {
            assert s[1..][j] == s[j + 1];
          }
        }
      }
    }
  }

  lemma {:induction false} IncreasingCard(ks: seq<nat>, keys: set<nat>)
    requires Increasing(ks)
    requires forall k :: k in ks <==> k in keys
    ensures |ks| == |keys|
  {
    if ks != [] {
      var rest := keys - {ks[0]};
      assert forall k :: k in ks[1..] <==> k in rest;
      IncreasingCard(ks[1..], rest);
    } else {
      assert keys == {};
    }
  }
}
