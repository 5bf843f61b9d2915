/**
 * Sequence helpers standing in for the array methods and query clauses the
 * source relies on: `filter`, a table scan in key order, `sort` with a
 * comparator, substring search and string comparison.
 */
module Seqs {

  /** No element occurs twice. */
  ghost predicate Distinct<T(!new)>(s: seq<T>) {
    forall x :: multiset(s)[x] <= 1
  }

  /** `s.filter(p)`: the elements satisfying `p`, in their original order. */
  function Filter<T(!new)>(s: seq<T>, p: T -> bool): (r: seq<T>)
    ensures |r| <= |s|
    ensures forall x :: x in r <==> x in s && p(x)
    ensures forall i :: 0 <= i < |r| ==> p(r[i])
    ensures forall x :: multiset(r)[x] == if p(x) then multiset(s)[x] else 0
  {
    if s == [] then []
    else
      assert s == [s[0]] + s[1..];
      assert multiset(s) == multiset{s[0]} + multiset(s[1..]);
      if p(s[0]) then
        var r := [s[0]] + Filter(s[1..], p);
        assert multiset(r) == multiset{s[0]} + multiset(Filter(s[1..], p));
        r
      else Filter(s[1..], p)
  }

  lemma {:induction false} FilterAppend<T(!new)>(a: seq<T>, b: seq<T>, p: T -> bool)
    ensures Filter(a + b, p) == Filter(a, p) + Filter(b, p)
  {
    if a == [] {
      assert a + b == b;
    } else {
      assert (a + b)[1..] == a[1..] + b;
      FilterAppend(a[1..], b, p);
    }
  }

  /**
   * A full scan of a table keyed by generated numbers: the rows whose key is
   * below `n`, in key order.
   */
  function Scan<T(!new)>(m: map<nat, T>, n: nat): (r: seq<T>)
    ensures forall x :: x in r <==> exists id :: id < n && id in m && m[id] == x
    ensures (forall a, b :: a in m && b in m && a != b ==> m[a] != m[b]) ==> Distinct(r)
  {
    if n == 0 then []
    else
      var prefix := Scan(m, n - 1);
      if n - 1 in m then
        assert (forall a, b :: a in m && b in m && a != b ==> m[a] != m[b]) ==> m[n - 1] !in prefix;
        prefix + [m[n - 1]]
      else prefix
  }

  lemma FilterDistinct<T(!new)>(s: seq<T>, p: T -> bool)
    requires Distinct(s)
    ensures Distinct(Filter(s, p))
  {
  }

  /** Two sequences with the same multiset hold the same elements, and one is duplicate-free when the other is. */
  lemma SameElements<T(!new)>(a: seq<T>, b: seq<T>)
    requires multiset(a) == multiset(b)
    ensures forall x :: x in a <==> x in b
    ensures Distinct(a) <==> Distinct(b)
  {
    forall x ensures x in a <==> x in b {
      assert x in a <==> x in multiset(a);
      assert x in b <==> x in multiset(b);
    }
  }

  /** `le` orders every pair and is transitive. */
  ghost predicate TotalPreorder<T(!new)>(le: (T, T) -> bool) {
    && (forall a, b :: le(a, b) || le(b, a))
    && (forall a, b, c :: le(a, b) && le(b, c) ==> le(a, c))
  }

  ghost predicate SortedBy<T>(s: seq<T>, le: (T, T) -> bool) {
    forall i, j :: 0 <= i < j < |s| ==> le(s[i], s[j])
  }

  function Insert<T(!new)>(x: T, s: seq<T>, le: (T, T) -> bool): (r: seq<T>)
    requires TotalPreorder(le)
    requires SortedBy(s, le)
    ensures SortedBy(r, le)
    ensures multiset(r) == multiset(s) + multiset{x}
  {
    if s == [] then [x]
    else if le(x, s[0]) then [x] + s
    else
      assert s == [s[0]] + s[1..];
      assert le(s[0], x);
      var rest := Insert(x, s[1..], le);
      assert forall y :: y in rest ==> le(s[0], y) by {
        forall y | y in rest ensures le(s[0], y) {
          assert y in multiset(s[1..]) + multiset{x};
        }
      }
      SortedCons(s[0], rest, le);
      [s[0]] + rest
  }

  lemma SortedCons<T>(h: T, t: seq<T>, le: (T, T) -> bool)
    requires SortedBy(t, le)
    requires forall y :: y in t ==> le(h, y)
    ensures SortedBy([h] + t, le)
  {
    var r := [h] + t;
    forall i, j | 0 <= i < j < |r| ensures le(r[i], r[j]) {
      assert r[j] == t[j - 1];
      if i > 0 {
        assert r[i] == t[i - 1];
      }
    }
  }

  /** `s.sort(compare)`: a permutation of `s` ordered by `le`. */
  function InsertionSort<T(!new)>(s: seq<T>, le: (T, T) -> bool): (r: seq<T>)
    requires TotalPreorder(le)
    ensures SortedBy(r, le)
    ensures multiset(r) == multiset(s)
    ensures |r| == |s|
  {
    if s == [] then []
    else
      assert s == [s[0]] + s[1..];
      Insert(s[0], InsertionSort(s[1..], le), le)
  }

  /** `t` occurs in `s` starting at index `i`. */
  predicate OccursAt(s: string, t: string, i: nat) {
    i + |t| <= |s| && s[i..i + |t|] == t
  }

  /** `s.includes(t)`, and SQL `s LIKE '%t%'` when `t` holds no wildcard. */
  predicate Contains(s: string, t: string) {
    exists i :: 0 <= i <= |s| && OccursAt(s, t, i)
  }

  /** Comparison by character codes, as `a <= b` on JavaScript strings. */
  predicate LexLe(a: string, b: string) {
    if a == [] then true
    else if b == [] then false
    else if a[0] != b[0] then a[0] < b[0]
    else LexLe(a[1..], b[1..])
  }

  lemma {:induction false} LexLeTotal(a: string, b: string)
    ensures LexLe(a, b) || LexLe(b, a)
  {
    if a != [] && b != [] && a[0] == b[0] {
      LexLeTotal(a[1..], b[1..]);
    }
  }

  lemma {:induction false} LexLeTransitive(a: string, b: string, c: string)
    requires LexLe(a, b) && LexLe(b, c)
    ensures LexLe(a, c)
  {
    if a != [] && b != [] && c != [] && a[0] == b[0] && b[0] == c[0] {
      LexLeTransitive(a[1..], b[1..], c[1..]);
    }
  }
}
