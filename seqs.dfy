/**
 * Table algebra over sequences of rows: the stable filter, duplicate removal,
 * column sums, grouping and the left outer join that the transform stage gets
 * from its data-frame library, restated as explicit sequence functions.
 * All recursion peels off the LAST row, so a table grows by appending.
 */
module Seqs {
  import opened Wrappers

  // ---------------------------------------------------------------------------
  // Subsequences and duplicates
  // ---------------------------------------------------------------------------

  /** a arises from b by deleting rows: every row of a is a row of b, unchanged, in b's relative order. */
  predicate Subsequence<T(==,!new)>(a: seq<T>, b: seq<T>)
    decreases |b|
  {
    a == [] ||
    (b != [] &&
     ((a[|a| - 1] == b[|b| - 1] && Subsequence(a[..|a| - 1], b[..|b| - 1])) ||
      Subsequence(a, b[..|b| - 1])))
  }

  /** No two rows are equal in every column. */
  predicate NoDuplicates<T(==,!new)>(s: seq<T>)
  {
    forall i, j :: 0 <= i < j < |s| ==> s[i] != s[j]
  }

  /** In s, some occurrence of x comes before every occurrence of y. */
  ghost predicate OccursBefore<T(!new)>(s: seq<T>, x: T, y: T)
  {
    exists k :: 0 <= k < |s| && s[k] == x && y !in s[..k]
  }

  lemma {:induction false} SubsequenceOfEmpty<T(!new)>(a: seq<T>)
    requires Subsequence(a, [])
    ensures a == []
  {
  }

  /** Deleting rows twice is deleting rows once. */
  lemma {:induction false} SubsequenceTransitive<T(!new)>(a: seq<T>, b: seq<T>, c: seq<T>)
    requires Subsequence(a, b) && Subsequence(b, c)
    ensures Subsequence(a, c)
    decreases |c|
  {
    if a == [] {
    } else if b == [] {
      SubsequenceOfEmpty(a);
    } else {
      assert c != [];
      var c' := c[..|c| - 1];
      if b[|b| - 1] == c[|c| - 1] && Subsequence(b[..|b| - 1], c') {
        if a[|a| - 1] == b[|b| - 1] && Subsequence(a[..|a| - 1], b[..|b| - 1]) {
          SubsequenceTransitive(a[..|a| - 1], b[..|b| - 1], c');
        } else {
          assert Subsequence(a, b[..|b| - 1]);
          SubsequenceTransitive(a, b[..|b| - 1], c');
        }
      } else {
        assert Subsequence(b, c');
        SubsequenceTransitive(a, b, c');
      }
    }
  }

  // ---------------------------------------------------------------------------
  // Stable filter
  // ---------------------------------------------------------------------------

  /** The rows of s that satisfy keep, each as often as in s, in their original order. */
  function Filter<T(==,!new)>(s: seq<T>, keep: T -> bool): (r: seq<T>)
    ensures forall x :: multiset(r)[x] == if keep(x) then multiset(s)[x] else 0
    ensures forall x :: x in r <==> x in s && keep(x)
    ensures Subsequence(r, s)
    decreases |s|
  {
    if s == [] then []
    else
      var init := Filter(s[..|s| - 1], keep);
      assert s == s[..|s| - 1] + [s[|s| - 1]];
      if keep(s[|s| - 1]) then
        var r := init + [s[|s| - 1]];
        assert r[..|r| - 1] == init;
        r
      else init
  }

  /** Two successive filters keep exactly the rows that pass both. */
  lemma {:induction false} FilterTwice<T(!new)>(s: seq<T>, p: T -> bool, q: T -> bool, pq: T -> bool)
    requires forall x :: pq(x) == (p(x) && q(x))
    ensures Filter(Filter(s, p), q) == Filter(s, pq)
    decreases |s|
  {
    if s != [] {
      var init := s[..|s| - 1];
      FilterTwice(init, p, q, pq);
      if p(s[|s| - 1]) {
        var fp := Filter(s, p);
        assert fp[..|fp| - 1] == Filter(init, p);
      }
    }
  }

  /** A relation that holds from every earlier row to every later row still holds after filtering. */
  lemma {:induction false} FilterKeepsPairwise<T(!new)>(s: seq<T>, keep: T -> bool, rel: (T, T) -> bool)
    requires forall i, j :: 0 <= i < j < |s| ==> rel(s[i], s[j])
    ensures forall i, j :: 0 <= i < j < |Filter(s, keep)| ==> rel(Filter(s, keep)[i], Filter(s, keep)[j])
    decreases |s|
  {
    if s != [] {
      var init := s[..|s| - 1];
      var last := s[|s| - 1];
      FilterKeepsPairwise(init, keep, rel);
      var fi := Filter(init, keep);
      if keep(last) {
        var f := Filter(s, keep);
        assert f == fi + [last];
        forall i, j | 0 <= i < j < |f| ensures rel(f[i], f[j]) {
          if j < |fi| {
            assert f[i] == fi[i] && f[j] == fi[j];
          } else {
            assert f[i] == fi[i] && fi[i] in init;
            var k :| 0 <= k < |init| && init[k] == fi[i];
            assert rel(s[k], s[|s| - 1]);
          }
        }
      }
    }
  }

  /** A filter of a table without duplicates has none either. */
  lemma {:induction false} FilterNoDuplicates<T(!new)>(s: seq<T>, keep: T -> bool)
    requires NoDuplicates(s)
    ensures NoDuplicates(Filter(s, keep))
    decreases |s|
  {
    if s != [] {
      var init := s[..|s| - 1];
      assert NoDuplicates(init);
      FilterNoDuplicates(init, keep);
      var last := s[|s| - 1];
      assert last !in init by {
        forall j | 0 <= j < |init| ensures init[j] != last {
          assert init[j] == s[j];
        }
      }
    }
  }

  // ---------------------------------------------------------------------------
  // Duplicate removal (first occurrence kept)
  // ---------------------------------------------------------------------------

  /** Removes every row equal in all columns to an earlier row, keeping first occurrences in order. */
  function Dedup<T(==,!new)>(s: seq<T>): (r: seq<T>)
    ensures forall x :: x in r <==> x in s
    ensures NoDuplicates(r)
    ensures Subsequence(r, s)
    decreases |s|
  {
    if s == [] then []
    else
      var init := Dedup(s[..|s| - 1]);
      assert s == s[..|s| - 1] + [s[|s| - 1]];
      if s[|s| - 1] in s[..|s| - 1] then init
      else
        var r := init + [s[|s| - 1]];
        assert r[..|r| - 1] == init;
        r
  }

  /** The rows Dedup keeps appear in the order of their first occurrences in s. */
  lemma {:induction false} DedupKeepsFirstOccurrenceOrder<T(!new)>(s: seq<T>)
    ensures forall i, j :: 0 <= i < j < |Dedup(s)| ==> OccursBefore(s, Dedup(s)[i], Dedup(s)[j])
    decreases |s|
  {
    if s != [] {
      var init := s[..|s| - 1];
      var last := s[|s| - 1];
      DedupKeepsFirstOccurrenceOrder(init);
      var d := Dedup(init);
      forall i, j | 0 <= i < j < |Dedup(s)| ensures OccursBefore(s, Dedup(s)[i], Dedup(s)[j]) {
        var x, y := Dedup(s)[i], Dedup(s)[j];
        if j < |d| {
          assert x == d[i] && y == d[j];
          assert OccursBefore(init, x, y);
          var k :| 0 <= k < |init| && init[k] == x && y !in init[..k];
          assert s[..k] == init[..k];
        } else {
          assert last !in init && y == last && x == d[i];
          assert x in init;
          var k :| 0 <= k < |init| && init[k] == x;
          assert s[..k] == init[..k];
          assert forall z :: z in init[..k] ==> z in init;
        }
      }
    }
  }

  // ---------------------------------------------------------------------------
  // Column sums
  // ---------------------------------------------------------------------------

  /** Sum of an integer column. */
  function SumInt<T>(s: seq<T>, f: T -> int): int
    decreases |s|
  {
    if s == [] then 0 else SumInt(s[..|s| - 1], f) + f(s[|s| - 1])
  }

  /** Sum of a real-valued column. */
  function SumReal<T>(s: seq<T>, f: T -> real): real
    decreases |s|
  {
    if s == [] then 0.0 else SumReal(s[..|s| - 1], f) + f(s[|s| - 1])
  }

  lemma {:induction false} SumIntConcat<T(!new)>(a: seq<T>, b: seq<T>, f: T -> int)
    ensures SumInt(a + b, f) == SumInt(a, f) + SumInt(b, f)
    decreases |b|
  {
    if b != [] {
      assert (a + b)[..|a + b| - 1] == a + b[..|b| - 1];
      SumIntConcat(a, b[..|b| - 1], f);
    } else {
      assert a + b == a;
    }
  }

  lemma {:induction false} SumRealConcat<T(!new)>(a: seq<T>, b: seq<T>, f: T -> real)
    ensures SumReal(a + b, f) == SumReal(a, f) + SumReal(b, f)
    decreases |b|
  {
    if b != [] {
      assert (a + b)[..|a + b| - 1] == a + b[..|b| - 1];
      SumRealConcat(a, b[..|b| - 1], f);
    } else {
      assert a + b == a;
    }
  }

  /** Sums do not depend on row order: a permutation of the rows has the same sum. */
  lemma {:induction false} SumIntPermutation<T(!new)>(a: seq<T>, b: seq<T>, f: T -> int)
    requires multiset(a) == multiset(b)
    ensures SumInt(a, f) == SumInt(b, f)
    decreases |a|
  {
    if a == [] {
      assert |b| == |multiset(b)| == 0;
    } else {
      var x := a[|a| - 1];
      var init := a[..|a| - 1];
      assert a == init + [x];
      assert x in multiset(b);
      var i :| 0 <= i < |b| && b[i] == x;
      var rest := b[..i] + b[i + 1..];
      assert b == b[..i] + [x] + b[i + 1..];
      assert multiset(b) == multiset(b[..i]) + multiset{x} + multiset(b[i + 1..]);
      assert multiset(rest) == multiset(b[..i]) + multiset(b[i + 1..]);
      assert multiset(a) == multiset(init) + multiset{x};
      assert multiset(init) == multiset(a) - multiset{x};
      assert multiset(rest) == multiset(b) - multiset{x};
      SumIntPermutation(init, rest, f);
      SumIntConcat(b[..i], b[i + 1..], f);
      SumIntConcat(b[..i] + [x], b[i + 1..], f);
      SumIntConcat(b[..i], [x], f);
    }
  }

  lemma {:induction false} SumRealPermutation<T(!new)>(a: seq<T>, b: seq<T>, f: T -> real)
    requires multiset(a) == multiset(b)
    ensures SumReal(a, f) == SumReal(b, f)
    decreases |a|
  {
    if a == [] {
      assert |b| == |multiset(b)| == 0;
    } else {
      var x := a[|a| - 1];
      var init := a[..|a| - 1];
      assert a == init + [x];
      assert x in multiset(b);
      var i :| 0 <= i < |b| && b[i] == x;
      var rest := b[..i] + b[i + 1..];
      assert b == b[..i] + [x] + b[i + 1..];
      assert multiset(b) == multiset(b[..i]) + multiset{x} + multiset(b[i + 1..]);
      assert multiset(rest) == multiset(b[..i]) + multiset(b[i + 1..]);
      assert multiset(a) == multiset(init) + multiset{x};
      assert multiset(init) == multiset(a) - multiset{x};
      assert multiset(rest) == multiset(b) - multiset{x};
      SumRealPermutation(init, rest, f);
      SumRealConcat(b[..i], b[i + 1..], f);
      SumRealConcat(b[..i] + [x], b[i + 1..], f);
      SumRealConcat(b[..i], [x], f);
    }
  }

  /** The indicator column of a predicate: 1 where it holds, 0 elsewhere. */
  function Indicator<T>(p: T -> bool): T -> int
  {
    (x: T) => if p(x) then 1 else 0
  }

  /** A count is the sum of the indicator column. */
  lemma {:induction false} CountIsSum<T>(s: seq<T>, p: T -> bool)
    ensures Count(s, p) == SumInt(s, Indicator(p))
    decreases |s|
  {
    if s != [] {
      CountIsSum(s[..|s| - 1], p);
    }
  }

  /** A count does not depend on row order. */
  lemma CountPermutation<T(!new)>(a: seq<T>, b: seq<T>, p: T -> bool)
    requires multiset(a) == multiset(b)
    ensures Count(a, p) == Count(b, p)
  {
    CountIsSum(a, p);
    CountIsSum(b, p);
    SumIntPermutation(a, b, Indicator(p));
  }

  /** A mean does not depend on row order. */
  lemma MeanPermutation<T(!new)>(a: seq<T>, b: seq<T>, f: T -> real)
    requires multiset(a) == multiset(b) && |a| > 0
    ensures |b| > 0 && Mean(a, f) == Mean(b, f)
  {
    assert |a| == |multiset(a)| == |multiset(b)| == |b|;
    SumRealPermutation(a, b, f);
  }

  /** Reordering the rows only reorders the rows a mask keeps. */
  lemma FilterPermutation<T(!new)>(a: seq<T>, b: seq<T>, keep: T -> bool)
    requires multiset(a) == multiset(b)
    ensures multiset(Filter(a, keep)) == multiset(Filter(b, keep))
  {
    assert forall x :: multiset(Filter(a, keep))[x] == multiset(Filter(b, keep))[x];
  }

  /** Every entry of `a1` is an entry of `a2`. */
  ghost predicate Covers<K, V>(a1: map<K, V>, a2: map<K, V>)
  {
    forall k :: k in a1 ==> k in a2 && a1[k] == a2[k]
  }

  /** Two maps that cover each other are equal. */
  lemma SameEntries<K, V>(a1: map<K, V>, a2: map<K, V>)
    requires Covers(a1, a2) && Covers(a2, a1)
    ensures a1 == a2
  {
    assert a1.Keys == a2.Keys;
    assert forall k :: k in a1 ==> a1[k] == a2[k];
  }

  /** A column that is row by row at most another has at most its sum. */
  lemma {:induction false} SumIntMonotone<T(!new)>(s: seq<T>, f: T -> int, g: T -> int)
    requires forall x :: x in s ==> f(x) <= g(x)
    ensures SumInt(s, f) <= SumInt(s, g)
    decreases |s|
  {
    if s != [] {
      assert s[|s| - 1] in s;
      assert forall x :: x in s[..|s| - 1] ==> x in s;
      SumIntMonotone(s[..|s| - 1], f, g);
    }
  }

  /** A column with no negative entry has a non-negative sum. */
  lemma {:induction false} SumIntNonNegative<T(!new)>(s: seq<T>, f: T -> int)
    requires forall x :: x in s ==> f(x) >= 0
    ensures SumInt(s, f) >= 0
    decreases |s|
  {
    if s != [] {
      assert s[|s| - 1] in s;
      assert forall x :: x in s[..|s| - 1] ==> x in s;
      SumIntNonNegative(s[..|s| - 1], f);
    }
  }

  // ---------------------------------------------------------------------------
  // Grouping (group-by on an optional key; rows with a missing key are dropped)
  // ---------------------------------------------------------------------------

  /** The rows of one group: those whose key is present and equal to k, in table order. */
  function Select<R(==,!new), K(==,!new)>(rows: seq<R>, key: R -> Option<K>, k: K): (r: seq<R>)
    ensures forall x :: multiset(r)[x] == if key(x) == Some(k) then multiset(rows)[x] else 0
    ensures forall x :: x in r <==> x in rows && key(x) == Some(k)
  {
    Filter(rows, (x: R) => key(x) == Some(k))
  }

  /** A mask keeps some row exactly when some row satisfies it. */
  lemma FilterNonEmpty<T(!new)>(s: seq<T>, keep: T -> bool)
    ensures |Filter(s, keep)| > 0 <==> exists x :: x in s && keep(x)
  {
    var r := Filter(s, keep);
    if |r| > 0 {
      assert r[0] in r;
    }
  }

  /** A key selects some row exactly when some row carries it. */
  lemma SelectNonEmpty<R(!new), K(!new)>(rows: seq<R>, key: R -> Option<K>, k: K)
    ensures |Select(rows, key, k)| > 0 <==> exists x :: x in rows && key(x) == Some(k)
  {
    var r := Select(rows, key, k);
    if |r| > 0 {
      assert r[0] in r;
    }
  }

  /** Appending a row extends exactly the group of its key. */
  lemma {:induction false} SelectSnoc<R(!new), K(!new)>(init: seq<R>, x: R, key: R -> Option<K>, k: K)
    ensures Select(init + [x], key, k) == if key(x) == Some(k) then Select(init, key, k) + [x] else Select(init, key, k)
  {
    assert (init + [x])[..|init|] == init;
  }

  /** A key no row carries has an empty group. */
  lemma {:induction false} SelectNone<R(!new), K(!new)>(rows: seq<R>, key: R -> Option<K>, k: K)
    requires forall x :: x in rows ==> key(x) != Some(k)
    ensures Select(rows, key, k) == []
  {
    var r := Select(rows, key, k);
    assert multiset(r) == multiset{};
    assert |r| == |multiset(r)|;
  }

  /** Splits rows into groups by key in one pass; a row whose key is missing joins no group. */
  function Group<R(==,!new), K(==,!new)>(rows: seq<R>, key: R -> Option<K>): map<K, seq<R>>
    decreases |rows|
  {
    if rows == [] then map[]
    else
      var g := Group(rows[..|rows| - 1], key);
      var x := rows[|rows| - 1];
      match key(x)
      case None => g
      case Some(k) => g[k := (if k in g then g[k] else []) + [x]]
  }

  /**
   * The one-pass grouping has a group for exactly the keys that occur, and each
   * group holds exactly the rows with that key, in table order.
   */
  lemma {:induction false} GroupIsSelect<R(!new), K(!new)>(rows: seq<R>, key: R -> Option<K>)
    ensures forall k :: k in Group(rows, key) <==> exists x :: x in rows && key(x) == Some(k)
    ensures forall k :: k in Group(rows, key) ==> Group(rows, key)[k] == Select(rows, key, k)
    ensures forall k :: k in Group(rows, key) ==> Group(rows, key)[k] != []
    decreases |rows|
  {
    if rows != [] {
      var init := rows[..|rows| - 1];
      var x := rows[|rows| - 1];
      var g := Group(init, key);
      GroupIsSelect(init, key);
      assert rows == init + [x];
      var G := Group(rows, key);
      forall k ensures k in G <==> exists y :: y in rows && key(y) == Some(k) {
        if key(x) == Some(k) {
          assert x in rows;
        } else {
          assert (k in G) == (k in g);
          if k in g {
            var y :| y in init && key(y) == Some(k);
            assert y in rows;
          }
          if exists y :: y in rows && key(y) == Some(k) {
            var y :| y in rows && key(y) == Some(k);
            assert y in init;
          }
        }
      }
      forall k | k in G ensures G[k] == Select(rows, key, k) && G[k] != [] {
        SelectSnoc(init, x, key, k);
        if key(x) == Some(k) && k !in g {
          assert forall y :: y in init ==> key(y) != Some(k);
          SelectNone(init, key, k);
        }
      }
    }
  }

  /** Permuting the rows permutes each group. */
  lemma {:induction false} SelectPermutation<R(!new), K(!new)>(a: seq<R>, b: seq<R>, key: R -> Option<K>, k: K)
    requires multiset(a) == multiset(b)
    ensures multiset(Select(a, key, k)) == multiset(Select(b, key, k))
  {
    assert forall x :: multiset(Select(a, key, k))[x] == multiset(Select(b, key, k))[x];
  }

  // ---------------------------------------------------------------------------
  // Left outer join
  // ---------------------------------------------------------------------------

  /** The right rows whose key equals k, in right-table order. */
  function Matches<R(==,!new), K(==,!new)>(right: seq<R>, rk: R -> K, k: K): (ms: seq<R>)
    ensures forall r :: r in ms <==> r in right && rk(r) == k
  {
    Filter(right, (r: R) => rk(r) == k)
  }

  /** The first right row whose key equals k, if any. */
  function Lookup<R(==,!new), K(==,!new)>(right: seq<R>, rk: R -> K, k: K): (o: Option<R>)
    ensures o.Some? <==> exists r :: r in right && rk(r) == k
    ensures o.Some? ==> o.value in right && rk(o.value) == k
  {
    var ms := Matches(right, rk, k);
    if ms == [] then None
    else
      assert ms[0] in ms;
      Some(ms[0])
  }

  /** One left row joined with its matches: one pair per match, or the row alone when nothing matches. */
  function Pair<L, R>(l: L, ms: seq<R>): (p: seq<(L, Option<R>)>)
    ensures |p| == if ms == [] then 1 else |ms|
    ensures forall row :: row in p ==> row.0 == l
    ensures forall row :: row in p ==> (row.1.None? <==> ms == [])
    ensures forall row :: row in p && row.1.Some? ==> row.1.value in ms
  {
    if ms == [] then [(l, None)]
    else seq(|ms|, i requires 0 <= i < |ms| => (l, Some(ms[i])))
  }

  /**
   * Left outer join: each left row, in left order, is paired with every right row
   * whose key EQUALS its key, in right order; a left row without a match is kept
   * once, paired with None. Keys are compared by value, so a missing key on the
   * left matches a missing key on the right.
   */
  function LeftJoin<L(==,!new), R(==,!new), K(==,!new)>(left: seq<L>, right: seq<R>, lk: L -> K, rk: R -> K): (j: seq<(L, Option<R>)>)
    ensures |j| >= |left|
    ensures forall row :: row in j ==> row.0 in left
    ensures forall row :: row in j && row.1.Some? ==> row.1.value in right && rk(row.1.value) == lk(row.0)
    ensures forall row :: row in j && row.1.None? ==> Lookup(right, rk, lk(row.0)).None?
    ensures forall l :: l in left ==> exists row :: row in j && row.0 == l
    ensures forall l :: l in left && Lookup(right, rk, lk(l)).None? ==> (l, None) in j
    decreases |left|
  {
    if left == [] then []
    else
      var init := left[..|left| - 1];
      var l := left[|left| - 1];
      var ms := Matches(right, rk, lk(l));
      var p := Pair(l, ms);
      assert forall x :: x in init ==> x in left;
      assert forall x :: x in left ==> x in init || x == l;
      assert p[0] in p && p[0].0 == l;
      assert Lookup(right, rk, lk(l)).None? ==> p == [(l, None)];
      LeftJoin(init, right, lk, rk) + p
  }

  /** Each right key occurs at most once. */
  predicate Unique<R, K(==)>(s: seq<R>, key: R -> K)
  {
    forall i, j :: 0 <= i < j < |s| ==> key(s[i]) != key(s[j])
  }

  /** With unique keys, looking up a row's own key finds that row. */
  lemma LookupFound<R(!new), K(!new)>(right: seq<R>, rk: R -> K, r: R)
    requires Unique(right, rk) && r in right
    ensures Lookup(right, rk, rk(r)) == Some(r)
  {
    var o := Lookup(right, rk, rk(r));
    var i :| 0 <= i < |right| && right[i] == o.value;
    var j :| 0 <= j < |right| && right[j] == r;
    assert !(i < j) && !(j < i);
  }

  lemma {:induction false} MatchesUnique<R(!new), K(!new)>(right: seq<R>, rk: R -> K, k: K)
    requires Unique(right, rk)
    ensures |Matches(right, rk, k)| <= 1
    decreases |right|
  {
    if right != [] {
      var init := right[..|right| - 1];
      var last := right[|right| - 1];
      assert right == init + [last];
      assert Unique(init, rk);
      MatchesUnique(init, rk, k);
      if rk(last) == k {
        forall r | r in init ensures rk(r) != k {
          var i :| 0 <= i < |init| && init[i] == r;
          assert rk(right[i]) != rk(right[|right| - 1]);
        }
        var m := Matches(init, rk, k);
        assert multiset(m) == multiset{};
        assert |m| == |multiset(m)|;
        assert (init + [last])[..|init|] == init;
      } else {
        assert (init + [last])[..|init|] == init;
      }
    }
  }

  /** When right keys are unique, the join is one row per left row: the left row and its lookup. */
  lemma {:induction false} LeftJoinUnique<L(!new), R(!new), K(!new)>(left: seq<L>, right: seq<R>, lk: L -> K, rk: R -> K)
    requires Unique(right, rk)
    ensures JoinIsLookup(left, right, lk, rk)
    decreases |left|
  {
    if left != [] {
      var init, l := left[..|left| - 1], left[|left| - 1];
      assert init + [l] == left;
      LeftJoinUnique(init, right, lk, rk);
      LeftJoinUniqueStep(init, l, right, lk, rk);
    }
  }

  /** The join has one row per left row, holding that row and its lookup. */
  predicate JoinIsLookup<L(==,!new), R(==,!new), K(==,!new)>(left: seq<L>, right: seq<R>, lk: L -> K, rk: R -> K)
  {
    var j := LeftJoin(left, right, lk, rk);
    |j| == |left| && forall i :: 0 <= i < |left| ==> j[i] == (left[i], Lookup(right, rk, lk(left[i])))
  }

  /** The inductive step of LeftJoinUnique: the last left row adds its own lookup at the end. */
  lemma LeftJoinUniqueStep<L(!new), R(!new), K(!new)>(init: seq<L>, l: L, right: seq<R>, lk: L -> K, rk: R -> K)
    requires Unique(right, rk)
    requires JoinIsLookup(init, right, lk, rk)
    ensures JoinIsLookup(init + [l], right, lk, rk)
  {
    LeftJoinSnoc(init, l, right, lk, rk);
    MapSnoc(init, l, LeftJoin(init, right, lk, rk), x => (x, Lookup(right, rk, lk(x))));
  }

  /** Appending a row and its image to a table and its row-by-row image keeps the second the image of the first. */
  lemma MapSnoc<T, U>(init: seq<T>, l: T, image: seq<U>, f: T -> U)
    requires |image| == |init| && forall i :: 0 <= i < |init| ==> image[i] == f(init[i])
    ensures var left := init + [l];
      |image + [f(l)]| == |left| && forall i :: 0 <= i < |left| ==> (image + [f(l)])[i] == f(left[i])
  {
  }

  /** Every left row with a matching right row appears in the join paired with that row. */
  lemma {:induction false} LeftJoinComplete<L(!new), R(!new), K(!new)>(left: seq<L>, right: seq<R>, lk: L -> K, rk: R -> K, l: L, r: R)
    requires l in left && r in right && rk(r) == lk(l)
    ensures (l, Some(r)) in LeftJoin(left, right, lk, rk)
    decreases |left|
  {
    var init := left[..|left| - 1];
    var last := left[|left| - 1];
    assert left == init + [last];
    if l == last {
      var ms := Matches(right, rk, lk(l));
      assert r in ms;
      var i :| 0 <= i < |ms| && ms[i] == r;
      assert Pair(l, ms)[i] == (l, Some(r));
    } else {
      LeftJoinComplete(init, right, lk, rk, l, r);
    }
  }

  // ---------------------------------------------------------------------------
  // Projections, counts and selections through a join
  // ---------------------------------------------------------------------------

  /** The left rows of a joined table, in order: the columns a grouping reduces over. */
  function Project<L, R>(s: seq<(L, Option<R>)>): (r: seq<L>)
    ensures |r| == |s|
    ensures forall i :: 0 <= i < |s| ==> r[i] == s[i].0
  {
    seq(|s|, i requires 0 <= i < |s| => s[i].0)
  }

  lemma ProjectSnoc<L, R>(s: seq<(L, Option<R>)>, x: (L, Option<R>))
    ensures Project(s + [x]) == Project(s) + [x.0]
  {
    var a, b := Project(s + [x]), Project(s) + [x.0];
    assert |a| == |b|;
    forall i | 0 <= i < |a| ensures a[i] == b[i] {
      if i < |s| {
        assert (s + [x])[i] == s[i];
      }
    }
  }

  /** The number of rows satisfying p (a non-null count when p tests a cell for presence). */
  function Count<T>(s: seq<T>, p: T -> bool): (n: nat)
    ensures n <= |s|
    decreases |s|
  {
    if s == [] then 0 else Count(s[..|s| - 1], p) + (if p(s[|s| - 1]) then 1 else 0)
  }

  /** The mean of a column over a non-empty table. */
  function Mean<T>(s: seq<T>, f: T -> real): real
    requires |s| > 0
  {
    SumReal(s, f) / (|s| as real)
  }

  lemma {:induction false} FilterSnoc<T(!new)>(s: seq<T>, x: T, keep: T -> bool)
    ensures Filter(s + [x], keep) == if keep(x) then Filter(s, keep) + [x] else Filter(s, keep)
  {
    assert (s + [x])[..|s|] == s;
  }

  /**
   * With unique right keys, filtering the join and keeping the left rows is
   * filtering the left table by the same test applied to each row and its lookup.
   */
  lemma {:induction false} JoinFilter<L(!new), R(!new), K(!new)>(left: seq<L>, right: seq<R>, lk: L -> K, rk: R -> K,
                                                                  q: ((L, Option<R>)) -> bool, p: L -> bool)
    requires Unique(right, rk)
    requires forall l :: l in left ==> p(l) == q((l, Lookup(right, rk, lk(l))))
    ensures Project(Filter(LeftJoin(left, right, lk, rk), q)) == Filter(left, p)
    decreases |left|
  {
    if left != [] {
      var init := left[..|left| - 1];
      var l := left[|left| - 1];
      assert left == init + [l];
      JoinFilter(init, right, lk, rk, q, p);
      LeftJoinSnoc(init, l, right, lk, rk);
      var ji := LeftJoin(init, right, lk, rk);
      var x := (l, Lookup(right, rk, lk(l)));
      FilterSnoc(ji, x, q);
      FilterSnoc(init, l, p);
      var fi := Filter(ji, q);
      assert p(l) == q(x);
      ProjectSnoc(fi, x);
    }
  }

  /** The group of key k in a join with unique right keys, as a filter of the left table. */
  lemma {:induction false} JoinSelect<L(!new), R(!new), K(!new), G(!new)>(left: seq<L>, right: seq<R>, lk: L -> K, rk: R -> K,
                                                                          key: ((L, Option<R>)) -> Option<G>, k: G, p: L -> bool)
    requires Unique(right, rk)
    requires forall l :: l in left ==> p(l) == (key((l, Lookup(right, rk, lk(l)))) == Some(k))
    ensures Project(Select(LeftJoin(left, right, lk, rk), key, k)) == Filter(left, p)
    decreases |left|
  {
    if left != [] {
      var init := left[..|left| - 1];
      var l := left[|left| - 1];
      assert left == init + [l];
      JoinSelect(init, right, lk, rk, key, k, p);
      LeftJoinSnoc(init, l, right, lk, rk);
      var ji := LeftJoin(init, right, lk, rk);
      var x := (l, Lookup(right, rk, lk(l)));
      SelectSnoc(ji, x, key, k);
      FilterSnoc(init, l, p);
      var si := Select(ji, key, k);
      assert p(l) == (key(x) == Some(k));
      ProjectSnoc(si, x);
    }
  }

  /** With unique right keys, appending a left row appends exactly that row and its lookup to the join. */
  lemma LeftJoinSnoc<L(!new), R(!new), K(!new)>(init: seq<L>, l: L, right: seq<R>, lk: L -> K, rk: R -> K)
    requires Unique(right, rk)
    ensures LeftJoin(init + [l], right, lk, rk) == LeftJoin(init, right, lk, rk) + [(l, Lookup(right, rk, lk(l)))]
  {
    assert (init + [l])[..|init|] == init;
    MatchesUnique(right, rk, lk(l));
    var ms := Matches(right, rk, lk(l));
    if ms != [] {
      assert Pair(l, ms) == [(l, Some(ms[0]))];
    }
  }

  /** The left rows of a group of a join are rows of the left table. */
  lemma ProjectSelectIn<L(!new), R(!new), K(!new), G(!new)>(left: seq<L>, right: seq<R>, lk: L -> K, rk: R -> K,
                                                             key: ((L, Option<R>)) -> Option<G>, k: G)
    ensures forall x :: x in Project(Select(LeftJoin(left, right, lk, rk), key, k)) ==> x in left
  {
    var s := Select(LeftJoin(left, right, lk, rk), key, k);
    forall x | x in Project(s) ensures x in left {
      var i :| 0 <= i < |s| && Project(s)[i] == x;
      assert s[i] in s;
    }
  }

  /** The filter of a two-row table, row by row. */
  lemma FilterOfTwo<T(!new)>(s: seq<T>, keep: T -> bool)
    requires |s| == 2
    ensures Filter(s, keep) == (if keep(s[0]) then [s[0]] else []) + (if keep(s[1]) then [s[1]] else [])
  {
    FilterSnoc([], s[0], keep);
    assert [] + [s[0]] == s[..1];
    FilterSnoc(s[..1], s[1], keep);
    assert s[..1] + [s[1]] == s;
  }

  /** The filter of a three-row table, row by row. */
  lemma FilterOfThree<T(!new)>(s: seq<T>, keep: T -> bool)
    requires |s| == 3
    ensures Filter(s, keep) ==
      (if keep(s[0]) then [s[0]] else []) + (if keep(s[1]) then [s[1]] else []) + (if keep(s[2]) then [s[2]] else [])
  {
    var init := s[..2];
    assert init[0] == s[0] && init[1] == s[1];
    FilterOfTwo(init, keep);
    FilterSnoc(init, s[2], keep);
    assert init + [s[2]] == s;
  }

  /** Appending a row that already occurs adds nothing to the de-duplicated table; a new row is appended. */
  lemma DedupSnoc<T(!new)>(s: seq<T>, x: T)
    ensures Dedup(s + [x]) == if x in s then Dedup(s) else Dedup(s) + [x]
  {
    assert (s + [x])[..|s|] == s;
  }

  /** The sums of a two-row table. */
  lemma SumsOfTwo<T>(s: seq<T>, f: T -> int, g: T -> real)
    requires |s| == 2
    ensures SumInt(s, f) == f(s[0]) + f(s[1])
    ensures SumReal(s, g) == g(s[0]) + g(s[1])
  {
    assert s[..1][..0] == [] && s[..1][0] == s[0];
    assert SumInt(s[..1], f) == f(s[0]);
    assert SumReal(s[..1], g) == g(s[0]);
  }

  /** The group of a three-row table, row by row. */
  lemma SelectOfThree<R(!new), K(!new)>(s: seq<R>, key: R -> Option<K>, k: K)
    requires |s| == 3
    ensures Select(s, key, k) ==
      (if key(s[0]) == Some(k) then [s[0]] else []) + (if key(s[1]) == Some(k) then [s[1]] else []) +
      (if key(s[2]) == Some(k) then [s[2]] else [])
  {
    FilterOfThree(s, (x: R) => key(x) == Some(k));
  }

  /** A three-row filter that keeps exactly the first two rows. */
  lemma FilterFirstTwo<T(!new)>(s: seq<T>, keep: T -> bool)
    requires |s| == 3 && keep(s[0]) && keep(s[1]) && !keep(s[2])
    ensures Filter(s, keep) == s[..2]
  {
    FilterOfThree(s, keep);
    assert [s[0]] + [s[1]] + [] == s[..2];
  }

  /** A member of a three-row table is one of its rows. */
  lemma InThree<T>(s: seq<T>, x: T)
    requires |s| == 3 && x in s
    ensures x == s[0] || x == s[1] || x == s[2]
  {
  }
}
