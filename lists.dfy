/** The list operations the frontend stores are built from: find the first
    element with an id, keep the elements that pass a test, and insert or
    replace by id. */
module Lists {

  /** `findIndex(x => idOf(x) == id)`: the first position holding `id`, or -1. */
  function FindIndex<T>(s: seq<T>, idOf: T -> int, id: int): (r: int)
    ensures -1 <= r < |s|
    ensures r >= 0 ==> idOf(s[r]) == id && forall j :: 0 <= j < r ==> idOf(s[j]) != id
    ensures r == -1 <==> forall j :: 0 <= j < |s| ==> idOf(s[j]) != id
  {
    if s == [] then -1
    else if idOf(s[0]) == id then 0
    else
      var k := FindIndex(s[1..], idOf, id);
      if k == -1 then -1 else k + 1
  }

  /** `filter(keep)`: the elements that pass, in their order. */
  function Filter<T>(s: seq<T>, keep: T -> bool): (r: seq<T>)
    ensures |r| <= |s|
    ensures forall i :: 0 <= i < |r| ==> r[i] in s && keep(r[i])
    ensures forall i :: 0 <= i < |s| && keep(s[i]) ==> s[i] in r
  {
    if s == [] then []
    else (if keep(s[0]) then [s[0]] else []) + Filter(s[1..], keep)
  }

  /** The test `x => idOf(x) !== id` of a remove by id. */
  function Other<T>(idOf: T -> int, id: int): T -> bool {
    x => idOf(x) != id
  }

  /** Filtering distributes over concatenation, so the kept elements stay in
      their relative order. */
  lemma {:induction false} FilterAppend<T>(a: seq<T>, b: seq<T>, keep: T -> bool)
    ensures Filter(a + b, keep) == Filter(a, keep) + Filter(b, keep)
    decreases |a|
  {
    if a == [] {
      assert a + b == b;
    } else {
      assert (a + b)[1..] == a[1..] + b;
      FilterAppend(a[1..], b, keep);
    }
  }

  /** A list whose elements all pass is kept as it is. */
  lemma {:induction false} FilterKeepsAll<T>(s: seq<T>, keep: T -> bool)
    requires forall x :: x in s ==> keep(x)
    ensures Filter(s, keep) == s
    decreases |s|
  {
    if s != [] {
      assert s[0] in s;
      forall x | x in s[1..] ensures keep(x) {
        assert x in s;
      }
      FilterKeepsAll(s[1..], keep);
    }
  }

  /** Filtering twice by the same test is filtering once. */
  lemma FilterIdempotent<T>(s: seq<T>, keep: T -> bool)
    ensures Filter(Filter(s, keep), keep) == Filter(s, keep)
  {
    FilterKeepsAll(Filter(s, keep), keep);
  }

  /** Each element passes a test or fails it, so the two filters split the list. */
  lemma {:induction false} FilterPartition<T>(s: seq<T>, keep: T -> bool, drop: T -> bool)
    requires forall x :: drop(x) == !keep(x)
    ensures |Filter(s, keep)| + |Filter(s, drop)| == |s|
    decreases |s|
  {
    if s != [] {
      FilterPartition(s[1..], keep, drop);
    }
  }

  /** Removing an id that no element has leaves the list as it is. */
  lemma RemoveAbsentIsNoOp<T>(s: seq<T>, idOf: T -> int, id: int)
    requires forall j :: 0 <= j < |s| ==> idOf(s[j]) != id
    ensures Filter(s, Other(idOf, id)) == s
  {
    forall x | x in s ensures Other(idOf, id)(x) {
      var j :| 0 <= j < |s| && s[j] == x;
    }
    FilterKeepsAll(s, Other(idOf, id));
  }

  /** Insert or replace by id: the first element with the same id is
      replaced in place; without one, the element goes in front. */
  function Upserted<T>(s: seq<T>, x: T, idOf: T -> int): (r: seq<T>)
    ensures x in r
    ensures |r| == |s| || |r| == |s| + 1
  {
    var i := FindIndex(s, idOf, idOf(x));
    if i >= 0 then assert s[i := x][i] == x; s[i := x] else [x] + s
  }

  /** With the id present, upsert keeps the length and every position but
      the first one holding that id, which takes the new element. */
  lemma UpsertReplaces<T>(s: seq<T>, x: T, idOf: T -> int, i: int)
    requires 0 <= i < |s| && idOf(s[i]) == idOf(x)
    requires forall j :: 0 <= j < i ==> idOf(s[j]) != idOf(x)
    ensures var r := Upserted(s, x, idOf);
      && |r| == |s| && r[i] == x
      && forall j :: 0 <= j < |s| && j != i ==> r[j] == s[j]
  {
    assert FindIndex(s, idOf, idOf(x)) == i;
  }

  /** With the id absent, upsert puts the element first and keeps the rest in order. */
  lemma UpsertPrepends<T>(s: seq<T>, x: T, idOf: T -> int)
    requires forall j :: 0 <= j < |s| ==> idOf(s[j]) != idOf(x)
    ensures var r := Upserted(s, x, idOf);
      |r| == |s| + 1 && r[0] == x && r[1..] == s
  {
  }

  /** Upserting the same element twice is upserting it once. */
  lemma UpsertIdempotent<T>(s: seq<T>, x: T, idOf: T -> int)
    ensures Upserted(Upserted(s, x, idOf), x, idOf) == Upserted(s, x, idOf)
  {
    var i := FindIndex(s, idOf, idOf(x));
    if i >= 0 {
      UpsertReplaces(s, x, idOf, i);
      var r := Upserted(s, x, idOf);
      forall j | 0 <= j < i ensures idOf(r[j]) != idOf(x) {
        assert r[j] == s[j];
      }
      UpsertReplaces(r, x, idOf, i);
    } else {
      UpsertPrepends(s, x, idOf);
      UpsertReplaces([x] + s, x, idOf, 0);
    }
  }

  /** An element that fails the test drops out of the middle of a list. */
  lemma {:induction false} FilterSkips<T>(p: seq<T>, a: T, q: seq<T>, keep: T -> bool)
    requires !keep(a)
    ensures Filter(p + [a] + q, keep) == Filter(p, keep) + Filter(q, keep)
  {
    FilterAppend(p + [a], q, keep);
    FilterAppend(p, [a], keep);
    assert [a][1..] == [];
    assert Filter([a], keep) == [];
  }

  /** Removing an id after upserting an element with it gives the same list as
      removing it straight away. */
  lemma {:induction false} RemoveAfterUpsert<T>(s: seq<T>, x: T, idOf: T -> int)
    ensures Filter(Upserted(s, x, idOf), Other(idOf, idOf(x))) == Filter(s, Other(idOf, idOf(x)))
  {
    var keep := Other(idOf, idOf(x));
    var i := FindIndex(s, idOf, idOf(x));
    if i >= 0 {
      assert s == s[..i] + [s[i]] + s[i + 1..];
      assert Upserted(s, x, idOf) == s[..i] + [x] + s[i + 1..];
      FilterSkips(s[..i], s[i], s[i + 1..], keep);
      FilterSkips(s[..i], x, s[i + 1..], keep);
    } else {
      FilterSkips([], x, s, keep);
      assert [] + [x] + s == [x] + s;
    }
  }
}
