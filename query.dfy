/** The scan primitive the services use on the store: select the records of
    one table that pass a predicate, in an unspecified order, optionally sorted
    by an integer key. Ties, and the order of an unsorted scan, are left open,
    as a query without (or with a non-unique) ORDER BY leaves them. */
module Query {

  ghost predicate Distinct<T>(s: seq<T>) {
    forall i, j :: 0 <= i < j < |s| ==> s[i] != s[j]
  }

  ghost predicate Ascending<T>(s: seq<T>, key: T -> int) {
    forall i, j :: 0 <= i < j < |s| ==> key(s[i]) <= key(s[j])
  }

  /** Every record is stored under its own id. */
  ghost predicate Keyed<T>(m: map<int, T>, idOf: T -> int) {
    forall k :: k in m ==> idOf(m[k]) == k
  }

  /** `rows` holds each record of `m` that passes `keep` exactly once, and nothing else. */
  ghost predicate Lists<T>(m: map<int, T>, idOf: T -> int, keep: T -> bool, rows: seq<T>) {
    && (forall r :: r in rows ==> idOf(r) in m && m[idOf(r)] == r && keep(r))
    && (forall k :: k in m && keep(m[k]) ==> m[k] in rows)
    && Distinct(rows)
  }

  lemma NonEmptyHasMember(s: set<int>)
    requires s != {}
    ensures exists k :: k in s
  {
    if forall k :: k !in s {
      assert false;
    }
  }

  /** An unordered scan of one table. */
  method Select<T(==)>(m: map<int, T>, idOf: T -> int, keep: T -> bool) returns (rows: seq<T>)
    requires Keyed(m, idOf)
    ensures Lists(m, idOf, keep, rows)
  {
    var rest := m.Keys;
    rows := [];
    while rest != {}
      invariant rest <= m.Keys
      invariant forall r :: r in rows ==> idOf(r) in m && idOf(r) !in rest && m[idOf(r)] == r && keep(r)
      invariant forall k :: k in m && keep(m[k]) ==> k in rest || m[k] in rows
      invariant Distinct(rows)
      decreases rest
    {
      NonEmptyHasMember(rest);
      var k :| k in rest;
      rest := rest - {k};
      if keep(m[k]) {
        assert m[k] !in rows;
        rows := rows + [m[k]];
      }
    }
  }

  /** `x` placed before the first element of `s` whose key exceeds its own. */
  function Insert<T>(s: seq<T>, x: T, key: T -> int): (r: seq<T>)
    ensures |r| == |s| + 1
  {
    if s == [] || key(x) <= key(s[0]) then [x] + s else [s[0]] + Insert(s[1..], x, key)
  }

  /** A sorted list stays sorted with an element in front that is no larger than any of it. */
  lemma ConsAscending<T>(a: T, t: seq<T>, key: T -> int)
    requires Ascending(t, key)
    requires forall i :: 0 <= i < |t| ==> key(a) <= key(t[i])
    ensures Ascending([a] + t, key)
  {
    var r := [a] + t;
    forall i, j | 0 <= i < j < |r| ensures key(r[i]) <= key(r[j]) {
      assert r[j] == t[j - 1];
      if i > 0 {
        assert r[i] == t[i - 1];
      }
    }
  }

  /** Inserting adds exactly `x` to the contents. */
  lemma {:induction false} InsertContents<T>(s: seq<T>, x: T, key: T -> int)
    ensures multiset(Insert(s, x, key)) == multiset(s) + multiset{x}
  {
    if !(s == [] || key(x) <= key(s[0])) {
      InsertContents(s[1..], x, key);
      assert s == [s[0]] + s[1..];
    }
  }

  lemma {:induction false} InsertKeepsOrder<T>(s: seq<T>, x: T, key: T -> int)
    requires Ascending(s, key)
    ensures Ascending(Insert(s, x, key), key)
  {
    if s == [] || key(x) <= key(s[0]) {
      ConsAscending(x, s, key);
    } else {
      var tail := Insert(s[1..], x, key);
      InsertKeepsOrder(s[1..], x, key);
      InsertContents(s[1..], x, key);
      forall i | 0 <= i < |tail| ensures key(s[0]) <= key(tail[i]) {
        var y := tail[i];
        assert y in multiset(tail);
        if y != x {
          assert y in multiset(s[1..]);
          var k :| 0 <= k < |s[1..]| && s[1..][k] == y;
          assert s[k + 1] == y;
        }
      }
      ConsAscending(s[0], tail, key);
    }
  }

  /** Sorts by `key`, ascending; for newest-first pass the negated timestamp. */
  method SortBy<T(==)>(s: seq<T>, key: T -> int) returns (r: seq<T>)
    ensures Ascending(r, key)
    ensures multiset(r) == multiset(s)
  {
    r := [];
    for i := 0 to |s|
      invariant Ascending(r, key)
      invariant multiset(r) == multiset(s[..i])
    {
      InsertKeepsOrder(r, s[i], key);
      InsertContents(r, s[i], key);
      r := Insert(r, s[i], key);
      assert s[..i + 1] == s[..i] + [s[i]];
    }
    assert s[..|s|] == s;
  }

  /** A permutation of a duplicate-free sequence is duplicate-free. */
  lemma {:induction false} PermutationKeepsDistinct<T>(s: seq<T>, r: seq<T>)
    requires Distinct(s)
    requires multiset(r) == multiset(s)
    ensures Distinct(r)
  {
    forall i, j | 0 <= i < j < |r| ensures r[i] != r[j] {
      if r[i] == r[j] {
        var x := r[i];
        assert r == r[..i] + [r[i]] + r[i + 1..];
        assert r[i + 1..] == r[i + 1..j] + [r[j]] + r[j + 1..];
        assert multiset(r)[x] >= 2;
        CountAtMostOne(s, x);
        assert false;
      }
    }
  }

  lemma {:induction false} CountAtMostOne<T>(s: seq<T>, x: T)
    requires Distinct(s)
    ensures multiset(s)[x] <= 1
  {
    if s != [] {
      var t := s[1..];
      assert s == [s[0]] + t;
      assert Distinct(t) by {
        forall i, j | 0 <= i < j < |t| ensures t[i] != t[j] {
          assert t[i] == s[i + 1] && t[j] == s[j + 1];
        }
      }
      CountAtMostOne(t, x);
      if s[0] == x {
        assert x !in t by {
          forall j | 0 <= j < |t| ensures t[j] != x {
            assert t[j] == s[j + 1];
          }
        }
      }
    }
  }

  /** A scan of one table ordered by `key`, ascending. */
  method SelectSorted<T(==)>(m: map<int, T>, idOf: T -> int, keep: T -> bool, key: T -> int)
    returns (rows: seq<T>)
    requires Keyed(m, idOf)
    ensures Lists(m, idOf, keep, rows)
    ensures Ascending(rows, key)
  {
    var found := Select(m, idOf, keep);
    rows := SortBy(found, key);
    PermutationKeepsDistinct(found, rows);
    assert forall r :: r in rows <==> r in found by {
      forall r ensures r in rows <==> r in found {
        assert r in rows <==> r in multiset(rows);
        assert r in found <==> r in multiset(found);
      }
    }
  }
}
