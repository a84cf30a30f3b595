/** Query helpers over the rows of one table, in the order the query returns them:
    `filter(...).count()`, `filter(...).all()`, `.first()`, and `order_by(id.desc()).limit(n)`. */
module Rows {
  import opened Wrappers

  /** `query.filter(p).count()`. */
  function Count<T>(s: seq<T>, p: T -> bool): (n: nat)
    ensures n <= |s|
  {
    if s == [] then 0 else (if p(s[0]) then 1 else 0) + Count(s[1..], p)
  }

  /** Rows matched by two conditions that never hold together are counted at most once. */
  lemma {:induction false} CountDisjoint<T>(s: seq<T>, p: T -> bool, q: T -> bool)
    requires forall x :: p(x) ==> !q(x)
    ensures Count(s, p) + Count(s, q) <= |s|
  {
    if s != [] {
      CountDisjoint(s[1..], p, q);
    }
  }

  /** `query.filter(p).all()`. */
  function Filter<T(!new)>(s: seq<T>, keep: T -> bool): (r: seq<T>)
    ensures |r| <= |s|
    ensures forall x :: x in r <==> x in s && keep(x)
  {
    if s == [] then []
    else if keep(s[0]) then [s[0]] + Filter(s[1..], keep)
    else Filter(s[1..], keep)
  }

  /** The filter keeps every matching row as often as the table holds it, and no other. */
  lemma {:induction false} FilterMultiset<T(!new)>(s: seq<T>, keep: T -> bool, x: T)
    ensures multiset(Filter(s, keep))[x] == if keep(x) then multiset(s)[x] else 0
  {
    if s != [] {
      assert s == [s[0]] + s[1..];
      FilterMultiset(s[1..], keep, x);
    }
  }

  /** The filter keeps the rows in the order of the table: filtering a concatenation is
      concatenating the filtered parts. */
  lemma {:induction false} FilterAppend<T(!new)>(a: seq<T>, b: seq<T>, keep: T -> bool)
    ensures Filter(a + b, keep) == Filter(a, keep) + Filter(b, keep)
  {
    if a == [] {
      assert a + b == b;
    } else {
      assert (a + b)[0] == a[0] && (a + b)[1..] == a[1..] + b;
      FilterAppend(a[1..], b, keep);
    }
  }

  /** The filter keeps exactly as many rows as the count counts. */
  lemma {:induction false} FilterCount<T(!new)>(s: seq<T>, p: T -> bool)
    ensures |Filter(s, p)| == Count(s, p)
  {
    if s != [] {
      FilterCount(s[1..], p);
    }
  }

  /** The index of the first row satisfying `p`: `.filter(p).first()`. */
  function FirstIndex<T>(s: seq<T>, p: T -> bool): (r: Option<nat>)
    ensures r.None? <==> forall i :: 0 <= i < |s| ==> !p(s[i])
    ensures r.Some? ==> r.value < |s| && p(s[r.value]) && forall j :: 0 <= j < r.value ==> !p(s[j])
  {
    if s == [] then None
    else if p(s[0]) then Some(0)
    else match FirstIndex(s[1..], p)
      case None => None
      case Some(i) => Some(i + 1)
  }

  function First<T>(s: seq<T>, p: T -> bool): (r: Option<T>)
    ensures r.None? <==> forall i :: 0 <= i < |s| ==> !p(s[i])
    ensures r.Some? ==> exists i :: 0 <= i < |s| && s[i] == r.value && p(s[i]) && forall j :: 0 <= j < i ==> !p(s[j])
  {
    match FirstIndex(s, p)
    case None => None
    case Some(i) => Some(s[i])
  }

  /** Inserts `x` into `s`, which is ordered by descending key. */
  function InsertDesc<T>(x: T, s: seq<T>, key: T -> int): (r: seq<T>)
    ensures |r| == |s| + 1
    ensures multiset(r) == multiset(s) + multiset{x}
  {
    if s == [] || key(s[0]) <= key(x) then [x] + s
    else
      assert s == [s[0]] + s[1..];
      [s[0]] + InsertDesc(x, s[1..], key)
  }

  predicate SortedDesc<T>(s: seq<T>, key: T -> int) {
    forall i, j :: 0 <= i < j < |s| ==> key(s[i]) >= key(s[j])
  }

  lemma {:induction false} InsertDescSorted<T>(x: T, s: seq<T>, key: T -> int)
    requires SortedDesc(s, key)
    ensures SortedDesc(InsertDesc(x, s, key), key)
  {
    if s != [] && key(s[0]) > key(x) {
      InsertDescSorted(x, s[1..], key);
      var r := InsertDesc(x, s, key);
      var t := InsertDesc(x, s[1..], key);
      assert r == [s[0]] + t;
      forall k | 0 <= k < |t| ensures key(s[0]) >= key(t[k]) {
        assert t[k] in multiset(t);
        assert t[k] in multiset(s[1..]) + multiset{x};
        if t[k] != x {
          assert t[k] in multiset(s[1..]);
          assert t[k] in s[1..];
        }
      }
    }
  }

  /** `order_by(key.desc())`. */
  function SortDesc<T>(s: seq<T>, key: T -> int): (r: seq<T>)
    ensures |r| == |s|
    ensures multiset(r) == multiset(s)
  {
    if s == [] then [] else
      assert s == [s[0]] + s[1..];
      InsertDesc(s[0], SortDesc(s[1..], key), key)
  }

  lemma {:induction false} SortDescSorted<T>(s: seq<T>, key: T -> int)
    ensures SortedDesc(SortDesc(s, key), key)
  {
    if s != [] {
      SortDescSorted(s[1..], key);
      InsertDescSorted(s[0], SortDesc(s[1..], key), key);
    }
  }

  /** `order_by(key.desc()).limit(n).all()`. */
  function TopDesc<T>(s: seq<T>, key: T -> int, n: nat): seq<T> {
    var sorted := SortDesc(s, key);
    if |sorted| <= n then sorted else sorted[..n]
  }

  /** The result holds min(n, |s|) of the rows, highest key first, and no row left out has a
      higher key than a row kept. */
  lemma TopDescSpec<T>(s: seq<T>, key: T -> int, n: nat)
    ensures |TopDesc(s, key, n)| == if |s| <= n then |s| else n
    ensures SortedDesc(TopDesc(s, key, n), key)
    ensures multiset(TopDesc(s, key, n)) <= multiset(s)
    ensures forall x, y :: x in s && x !in TopDesc(s, key, n) && y in TopDesc(s, key, n) ==> key(x) <= key(y)
  {
    var sorted := SortDesc(s, key);
    SortDescSorted(s, key);
    var r := TopDesc(s, key, n);
    if |sorted| > n {
      assert sorted == r + sorted[n..];
      assert multiset(sorted) == multiset(r) + multiset(sorted[n..]);
      forall x, y | x in s && x !in r && y in r ensures key(x) <= key(y) {
        assert x in multiset(sorted);
        assert x in multiset(sorted[n..]);
        var i :| n <= i < |sorted| && sorted[i] == x by {
          assert x in sorted[n..];
          var k :| 0 <= k < |sorted[n..]| && sorted[n..][k] == x;
          assert sorted[n + k] == x;
        }
        var j :| 0 <= j < n && sorted[j] == y by {
          var k :| 0 <= k < |r| && r[k] == y;
          assert sorted[k] == y;
        }
      }
    } else {
      forall x | x in s ensures x in sorted {
        assert x in multiset(s);
      }
    }
  }
}
