/** The part of a relational engine that the query builders rely on: selection, ordering,
    de-duplication and paging of a sequence of rows.  All functions recurse on the last row,
    which is the direction in which the loops of the builders consume a result. */
module Relational {

  datatype Option<+T> = None | Some(value: T)

  /** One ORDER BY term: a key (columns enter by their rank) and a direction. */
  datatype OrderTerm<!R> = OrderTerm(key: R -> int, desc: bool)

  // ----- selection -----

  function Filter<R>(p: R -> bool, s: seq<R>): seq<R> {
    if s == [] then []
    else
      var f, last := Filter(p, s[..|s| - 1]), s[|s| - 1];
      if p(last) then f + [last] else f
  }

  lemma {:induction false} FilterSnoc<R>(p: R -> bool, s: seq<R>, x: R)
    ensures Filter(p, s + [x]) == if p(x) then Filter(p, s) + [x] else Filter(p, s)
  {
    assert (s + [x])[..|s|] == s;
  }

  /** The conjunction of a builder's predicates. */
  function All<R>(ps: seq<R -> bool>): R -> bool {
    r => forall i | 0 <= i < |ps| :: ps[i](r)
  }

  function Map<R, T>(f: R -> T, s: seq<R>): (t: seq<T>)
    ensures |t| == |s|
    ensures forall i :: 0 <= i < |s| ==> t[i] == f(s[i])
  {
    seq(|s|, i requires 0 <= i < |s| => f(s[i]))
  }

  lemma MapSnoc<R, T>(f: R -> T, s: seq<R>, x: R)
    ensures Map(f, s + [x]) == Map(f, s) + [f(x)]
  {
  }

  lemma {:induction false} FilterIn<R>(p: R -> bool, s: seq<R>, x: R)
    ensures x in Filter(p, s) <==> x in s && p(x)
  {
    if s != [] {
      FilterIn(p, s[..|s| - 1], x);
      assert s == s[..|s| - 1] + [s[|s| - 1]];
    }
  }

  lemma {:induction false} FilterAgree<R>(p: R -> bool, q: R -> bool, s: seq<R>)
    requires forall x | x in s :: p(x) == q(x)
    ensures Filter(p, s) == Filter(q, s)
  {
    if s != [] {
      assert s[|s| - 1] in s;
      assert forall x | x in s[..|s| - 1] :: x in s;
      FilterAgree(p, q, s[..|s| - 1]);
    }
  }

  /** Selecting twice is selecting by the conjunction. */
  lemma {:induction false} FilterFilter<R>(p: R -> bool, q: R -> bool, pq: R -> bool, s: seq<R>)
    requires forall x | x in s :: pq(x) == (p(x) && q(x))
    ensures Filter(p, Filter(q, s)) == Filter(pq, s)
  {
    if s != [] {
      var init, last := s[..|s| - 1], s[|s| - 1];
      assert last in s;
      assert forall x | x in init :: x in s;
      FilterFilter(p, q, pq, init);
      FilterSnoc(p, Filter(q, init), last);
    }
  }

  lemma {:induction false} FilterConcat<R>(p: R -> bool, a: seq<R>, b: seq<R>)
    ensures Filter(p, a + b) == Filter(p, a) + Filter(p, b)
  {
    if b == [] {
      assert a + b == a;
    } else {
      assert (a + b)[..|a + b| - 1] == a + b[..|b| - 1];
      FilterConcat(p, a, b[..|b| - 1]);
    }
  }

  /** Selecting among mapped rows is mapping the selected rows. */
  lemma {:induction false} FilterMap<R, T>(p: T -> bool, f: R -> T, pf: R -> bool, s: seq<R>)
    requires forall x | x in s :: pf(x) == p(f(x))
    ensures Filter(p, Map(f, s)) == Map(f, Filter(pf, s))
  {
    if s != [] {
      var init, last := s[..|s| - 1], s[|s| - 1];
      assert last in s;
      assert forall x | x in init :: x in s;
      FilterMap(p, f, pf, init);
      assert Map(f, s)[..|s| - 1] == Map(f, init);
      if pf(last) {
        assert Map(f, Filter(pf, init) + [last]) == Map(f, Filter(pf, init)) + [f(last)];
      }
    }
  }

  lemma {:induction false} FilterAll<R>(p: R -> bool, s: seq<R>)
    requires forall x | x in s :: p(x)
    ensures Filter(p, s) == s
  {
    if s != [] {
      assert forall x | x in s[..|s| - 1] :: x in s;
      assert s[|s| - 1] in s;
      FilterAll(p, s[..|s| - 1]);
      assert s == s[..|s| - 1] + [s[|s| - 1]];
    }
  }

  lemma {:induction false} FilterNone<R>(p: R -> bool, s: seq<R>)
    requires forall x | x in s :: !p(x)
    ensures Filter(p, s) == []
  {
    if s != [] {
      assert forall x | x in s[..|s| - 1] :: x in s;
      assert s[|s| - 1] in s;
      FilterNone(p, s[..|s| - 1]);
    }
  }

  // ----- ordering -----

  /** a sorts no later than b under the terms taken lexicographically. */
  predicate Le<R>(ts: seq<OrderTerm<R>>, a: R, b: R) {
    if ts == [] then true
    else
      var ka, kb := ts[0].key(a), ts[0].key(b);
      (if ts[0].desc then kb < ka else ka < kb) || (ka == kb && Le(ts[1..], a, b))
  }

  /** Stable insertion: x goes after every row that sorts no later than it. */
  function Insert<R>(ts: seq<OrderTerm<R>>, s: seq<R>, x: R): seq<R> {
    if s == [] || Le(ts, s[|s| - 1], x) then s + [x]
    else Insert(ts, s[..|s| - 1], x) + [s[|s| - 1]]
  }

  /** ORDER BY as a stable sort of the scan order. */
  function Sort<R>(ts: seq<OrderTerm<R>>, s: seq<R>): seq<R> {
    if s == [] then [] else Insert(ts, Sort(ts, s[..|s| - 1]), s[|s| - 1])
  }

  ghost predicate Sorted<R>(ts: seq<OrderTerm<R>>, s: seq<R>) {
    forall i, j | 0 <= i < j < |s| :: Le(ts, s[i], s[j])
  }

  lemma {:induction false} LeTotal<R>(ts: seq<OrderTerm<R>>, a: R, b: R)
    ensures Le(ts, a, b) || Le(ts, b, a)
  {
    if ts != [] { LeTotal(ts[1..], a, b); }
  }

  lemma {:induction false} LeTransitive<R>(ts: seq<OrderTerm<R>>, a: R, b: R, c: R)
    requires Le(ts, a, b) && Le(ts, b, c)
    ensures Le(ts, a, c)
  {
    if ts != [] && ts[0].key(a) == ts[0].key(b) == ts[0].key(c) { LeTransitive(ts[1..], a, b, c); }
  }

  lemma {:induction false} InsertIn<R>(ts: seq<OrderTerm<R>>, s: seq<R>, x: R)
    ensures multiset(Insert(ts, s, x)) == multiset(s) + multiset{x}
  {
    if s != [] {
      assert s == s[..|s| - 1] + [s[|s| - 1]];
      if !Le(ts, s[|s| - 1], x) { InsertIn(ts, s[..|s| - 1], x); }
    }
  }

  lemma {:induction false} InsertSorted<R>(ts: seq<OrderTerm<R>>, s: seq<R>, x: R)
    requires Sorted(ts, s)
    ensures Sorted(ts, Insert(ts, s, x))
  {
    if s != [] {
      var init, last := s[..|s| - 1], s[|s| - 1];
      if Le(ts, last, x) {
        forall i | 0 <= i < |s| ensures Le(ts, s[i], x) {
          if i < |s| - 1 { LeTransitive(ts, s[i], last, x); }
        }
      } else {
        LeTotal(ts, last, x);
        InsertSorted(ts, init, x);
        var r := Insert(ts, init, x);
        InsertIn(ts, init, x);
        forall i | 0 <= i < |r| ensures Le(ts, r[i], last) {
          assert r[i] in multiset(r);
          if r[i] != x {
            assert r[i] in multiset(init);
            var k :| 0 <= k < |init| && init[k] == r[i];
            assert s[k] == r[i];
          }
        }
      }
    }
  }

  /** Sort orders its rows and keeps each exactly as often as it occurs. */
  lemma {:induction false} SortCorrect<R>(ts: seq<OrderTerm<R>>, s: seq<R>)
    ensures Sorted(ts, Sort(ts, s))
    ensures multiset(Sort(ts, s)) == multiset(s)
  {
    if s != [] {
      SortCorrect(ts, s[..|s| - 1]);
      InsertSorted(ts, Sort(ts, s[..|s| - 1]), s[|s| - 1]);
      InsertIn(ts, Sort(ts, s[..|s| - 1]), s[|s| - 1]);
      assert s == s[..|s| - 1] + [s[|s| - 1]];
    }
  }

  lemma {:induction false} InsertFilter<R>(p: R -> bool, ts: seq<OrderTerm<R>>, s: seq<R>, x: R)
    requires Sorted(ts, s)
    ensures Filter(p, Insert(ts, s, x)) == if p(x) then Insert(ts, Filter(p, s), x) else Filter(p, s)
  {
    if s == [] || Le(ts, s[|s| - 1], x) {
      FilterSnoc(p, s, x);
      AllNoLater(ts, s, x);
      var f := Filter(p, s);
      if f != [] { FilterIn(p, s, f[|f| - 1]); }
    } else {
      var init, last := s[..|s| - 1], s[|s| - 1];
      InsertFilter(p, ts, init, x);
      FilterSnoc(p, Insert(ts, init, x), last);
      if p(last) {
        InsertBeforeLast(ts, Filter(p, init), last, x);
      } else {
        assert Filter(p, s) == Filter(p, init);
      }
    }
  }

  lemma {:induction false} InsertBeforeLast<R>(ts: seq<OrderTerm<R>>, s: seq<R>, last: R, x: R)
    requires !Le(ts, last, x)
    ensures Insert(ts, s + [last], x) == Insert(ts, s, x) + [last]
  {
    assert (s + [last])[..|s|] == s;
  }

  lemma {:induction false} AllNoLater<R>(ts: seq<OrderTerm<R>>, s: seq<R>, x: R)
    requires Sorted(ts, s) && (s == [] || Le(ts, s[|s| - 1], x))
    ensures forall y | y in s :: Le(ts, y, x)
  {
    forall y | y in s ensures Le(ts, y, x) {
      var k :| 0 <= k < |s| && s[k] == y;
      if k < |s| - 1 { LeTransitive(ts, y, s[|s| - 1], x); }
    }
  }

  lemma {:induction false} SortSnoc<R>(ts: seq<OrderTerm<R>>, s: seq<R>, x: R)
    ensures Sort(ts, s + [x]) == Insert(ts, Sort(ts, s), x)
  {
    assert (s + [x])[..|s|] == s;
  }

  /** A stable sort commutes with selection. */
  lemma {:induction false} SortFilter<R>(p: R -> bool, ts: seq<OrderTerm<R>>, s: seq<R>)
    ensures Filter(p, Sort(ts, s)) == Sort(ts, Filter(p, s))
  {
    if s != [] {
      var init, last := s[..|s| - 1], s[|s| - 1];
      SortFilter(p, ts, init);
      SortCorrect(ts, init);
      InsertFilter(p, ts, Sort(ts, init), last);
      SortSnoc(ts, Filter(p, init), last);
    }
  }

  lemma {:induction false} SortUnordered<R>(s: seq<R>)
    ensures Sort([], s) == s
  {
    if s != [] {
      SortUnordered(s[..|s| - 1]);
      assert s == s[..|s| - 1] + [s[|s| - 1]];
    }
  }

  /** What is sorted already is left as it is. */
  lemma {:induction false} SortSorted<R>(ts: seq<OrderTerm<R>>, s: seq<R>)
    requires Sorted(ts, s)
    ensures Sort(ts, s) == s
  {
    if s != [] {
      SortSorted(ts, s[..|s| - 1]);
      assert s == s[..|s| - 1] + [s[|s| - 1]];
    }
  }

  /** Rows that no term tells apart come in the order in which s has them. */
  ghost predicate TiesKept<R>(ts: seq<OrderTerm<R>>, s: seq<R>, r: seq<R>) {
    forall i, j | 0 <= i < j < |r| && Le(ts, r[j], r[i]) :: ComesBefore(s, r[i], r[j])
  }

  ghost predicate ComesBefore<R>(s: seq<R>, x: R, y: R) { exists a, b | 0 <= a < b < |s| :: s[a] == x && s[b] == y }

  lemma {:induction false} InsertStable<R>(ts: seq<OrderTerm<R>>, s: seq<R>, r: seq<R>, x: R)
    requires TiesKept(ts, s, r) && multiset(r) <= multiset(s)
    ensures TiesKept(ts, s + [x], Insert(ts, r, x))
    decreases |r|
  {
    if r == [] || Le(ts, r[|r| - 1], x) {
      var w := r + [x];
      forall i, j | 0 <= i < j < |w| && Le(ts, w[j], w[i]) ensures ComesBefore(s + [x], w[i], w[j]) {
        if j < |r| { StillBefore(s, x, w[i], w[j]); } else { BeforeLast(s, r, x, i); }
      }
    } else {
      var init, last := r[..|r| - 1], r[|r| - 1];
      assert r == init + [last];
      InsertStable(ts, s, init, x);
      InsertIn(ts, init, x);
      var w := Insert(ts, init, x);
      forall i | 0 <= i < |w| && Le(ts, last, w[i]) ensures ComesBefore(s + [x], w[i], last) {
        assert w[i] in multiset(w);
        var k :| 0 <= k < |init| && init[k] == w[i];
        assert r[k] == w[i] && r[|r| - 1] == last;
        StillBefore(s, x, w[i], last);
      }
    }
  }

  lemma StillBefore<R>(s: seq<R>, z: R, x: R, y: R)
    requires ComesBefore(s, x, y)
    ensures ComesBefore(s + [z], x, y)
  {
    var a, b :| 0 <= a < b < |s| && s[a] == x && s[b] == y;
    assert (s + [z])[a] == x && (s + [z])[b] == y;
  }

  lemma BeforeLast<R>(s: seq<R>, r: seq<R>, z: R, i: nat)
    requires i < |r| && multiset(r) <= multiset(s)
    ensures ComesBefore(s + [z], r[i], z)
  {
    assert r[i] in multiset(r);
    var a :| 0 <= a < |s| && s[a] == r[i];
    assert (s + [z])[a] == r[i] && (s + [z])[|s|] == z;
  }

  lemma {:induction false} SortStable<R>(ts: seq<OrderTerm<R>>, s: seq<R>)
    ensures TiesKept(ts, s, Sort(ts, s))
  {
    if s != [] {
      var init, last := s[..|s| - 1], s[|s| - 1];
      SortStable(ts, init);
      SortMultiset(ts, init);
      InsertStable(ts, init, Sort(ts, init), last);
      assert s == init + [last];
    }
  }

  lemma {:induction false} SortMultiset<R>(ts: seq<OrderTerm<R>>, s: seq<R>)
    ensures multiset(Sort(ts, s)) == multiset(s)
  {
    SortCorrect(ts, s);
  }

  lemma {:induction false} FilterBefore<R>(p: R -> bool, s: seq<R>, x: R, y: R)
    requires ComesBefore(Filter(p, s), x, y)
    ensures ComesBefore(s, x, y)
    decreases |s|
  {
    var f := Filter(p, s);
    var init, last := s[..|s| - 1], s[|s| - 1];
    var a, b :| 0 <= a < b < |f| && f[a] == x && f[b] == y;
    assert s == init + [last];
    if b < |Filter(p, init)| {
      assert ComesBefore(Filter(p, init), x, y);
      FilterBefore(p, init, x, y);
      StillBefore(init, last, x, y);
    } else {
      assert f == Filter(p, init) + [last];
      assert Filter(p, init)[a] in Filter(p, init);
      FilterIn(p, init, x);
      var k :| 0 <= k < |init| && init[k] == x;
      assert s[k] == x && s[|s| - 1] == y;
    }
  }

  lemma {:induction false} FilterCount<R>(p: R -> bool, s: seq<R>, x: R)
    ensures multiset(Filter(p, s))[x] == if p(x) then multiset(s)[x] else 0
  {
    if s != [] {
      FilterCount(p, s[..|s| - 1], x);
      assert s == s[..|s| - 1] + [s[|s| - 1]];
    }
  }

  // ----- de-duplication -----

  predicate HasKey<R, K(==)>(key: R -> K, s: seq<R>, k: K) {
    exists i | 0 <= i < |s| :: key(s[i]) == k
  }

  /** The first row of each key, in order of first occurrence. */
  function Distinct<R, K(==)>(key: R -> K, s: seq<R>): seq<R> {
    if s == [] then []
    else
      var d, last := Distinct(key, s[..|s| - 1]), s[|s| - 1];
      if HasKey(key, d, key(last)) then d else d + [last]
  }

  ghost predicate KeysDiffer<R, K>(key: R -> K, s: seq<R>) {
    forall i, j | 0 <= i < j < |s| :: key(s[i]) != key(s[j])
  }

  /** Distinct keeps one row per key and loses no key. */
  lemma {:induction false} DistinctCorrect<R, K>(key: R -> K, s: seq<R>)
    ensures KeysDiffer(key, Distinct(key, s))
    ensures forall x | x in Distinct(key, s) :: x in s
    ensures forall x | x in s :: HasKey(key, Distinct(key, s), key(x))
  {
    if s != [] {
      var init, last := s[..|s| - 1], s[|s| - 1];
      var d, e := Distinct(key, init), Distinct(key, s);
      DistinctCorrect(key, init);
      assert s == init + [last];
      if e != d {
        assert e == d + [last];
        assert key(e[|d|]) == key(last);
        forall x | x in init ensures HasKey(key, e, key(x)) {
          var i :| 0 <= i < |d| && key(d[i]) == key(x);
          assert e[i] == d[i];
        }
      }
    }
  }

  lemma {:induction false} DistinctIdentity<R, K>(key: R -> K, s: seq<R>)
    requires KeysDiffer(key, s)
    ensures Distinct(key, s) == s
  {
    if s != [] { DistinctIdentity(key, s[..|s| - 1]); }
  }

  lemma {:induction false} KeysDifferFilter<R, K>(key: R -> K, p: R -> bool, s: seq<R>)
    requires KeysDiffer(key, s)
    ensures KeysDiffer(key, Filter(p, s))
  {
    if s != [] {
      var init, last := s[..|s| - 1], s[|s| - 1];
      KeysDifferFilter(key, p, init);
      forall x | x in Filter(p, init) ensures key(x) != key(last) {
        FilterIn(p, init, x);
        var i :| 0 <= i < |init| && init[i] == x;
        assert s[i] == x;
      }
    }
  }

  // ----- paging -----

  /** LIMIT/OFFSET; no limit is None. */
  function Page<R>(limit: Option<nat>, offset: nat, s: seq<R>): seq<R> {
    var rest := if offset <= |s| then s[offset..] else [];
    if limit.Some? && limit.value < |rest| then rest[..limit.value] else rest
  }

  lemma PageIn<R>(limit: Option<nat>, offset: nat, s: seq<R>)
    ensures forall x | x in Page(limit, offset, s) :: x in s
  {
  }
}
