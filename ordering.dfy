/**
 * The two query shapes the services use over a keyed table:
 * `SelectSorted` is `filter(...).order_by(...).all()` and `FirstMatch` is
 * `filter(...).first()` (in primary-key order).
 */
module Ordering {
  import opened Wrappers

  /** Every key of `m` is stored under its own id. */
  ghost predicate Keyed<T>(m: map<int, T>, idOf: T -> int) {
    forall k :: k in m ==> idOf(m[k]) == k
  }

  /** `rows` is ordered by non-decreasing `rank`. */
  ghost predicate SortedBy<T>(rows: seq<T>, rank: T -> real) {
    forall i, j :: 0 <= i < j < |rows| ==> rank(rows[i]) <= rank(rows[j])
  }

  /** Some element of a non-empty key set (the order in which a loop visits the keys). */
  method Pick(s: set<int>) returns (x: int)
    requires s != {}
    ensures x in s
  {
    HasElement(s);
    x :| x in s;
  }

  lemma HasElement(s: set<int>)
    requires s != {}
    ensures exists y :: y in s
  {
    if forall y :: y !in s {
      assert false;
    }
  }

  /** Where `x` goes in `rows`: after every row whose rank is not larger than its own. */
  function InsertionPoint<T>(rows: seq<T>, x: T, rank: T -> real): (p: nat)
    requires SortedBy(rows, rank)
    ensures p <= |rows|
    ensures forall i :: 0 <= i < p ==> rank(rows[i]) <= rank(x)
    ensures forall i :: p <= i < |rows| ==> rank(x) < rank(rows[i])
  {
    if rows == [] || rank(x) < rank(rows[0]) then 0
    else 1 + InsertionPoint(rows[1..], x, rank)
  }

  /** Inserting at the insertion point keeps the rows sorted. */
  lemma InsertKeepsSorted<T>(rows: seq<T>, x: T, rank: T -> real, p: nat)
    requires SortedBy(rows, rank) && p <= |rows|
    requires forall i :: 0 <= i < p ==> rank(rows[i]) <= rank(x)
    requires forall i :: p <= i < |rows| ==> rank(x) < rank(rows[i])
    ensures SortedBy(rows[..p] + [x] + rows[p..], rank)
  {
    var r := rows[..p] + [x] + rows[p..];
    forall i, j | 0 <= i < j < |r|
      ensures rank(r[i]) <= rank(r[j])
    {
      if j < p {
        assert r[i] == rows[i] && r[j] == rows[j];
      } else if j == p {
        assert r[i] == rows[i];
      } else if i < p {
        assert r[i] == rows[i] && r[j] == rows[j - 1];
      } else if i == p {
        assert r[j] == rows[j - 1];
      } else {
        assert r[i] == rows[i - 1] && r[j] == rows[j - 1];
      }
    }
  }

  /** Inserting a row whose id is new keeps the ids pairwise distinct. */
  lemma InsertKeepsDistinct<T>(rows: seq<T>, x: T, idOf: T -> int, p: nat)
    requires p <= |rows|
    requires forall i, j :: 0 <= i < j < |rows| ==> idOf(rows[i]) != idOf(rows[j])
    requires forall y :: y in rows ==> idOf(y) != idOf(x)
    ensures forall i, j :: 0 <= i < j < |rows[..p] + [x] + rows[p..]| ==>
      idOf((rows[..p] + [x] + rows[p..])[i]) != idOf((rows[..p] + [x] + rows[p..])[j])
  {
    var r := rows[..p] + [x] + rows[p..];
    forall i, j | 0 <= i < j < |r|
      ensures idOf(r[i]) != idOf(r[j])
    {
      if j < p {
        assert r[i] == rows[i] && r[j] == rows[j];
      } else if j == p {
        assert r[i] == rows[i];
      } else if i < p {
        assert r[i] == rows[i] && r[j] == rows[j - 1];
      } else if i == p {
        assert r[j] == rows[j - 1];
      } else {
        assert r[i] == rows[i - 1] && r[j] == rows[j - 1];
      }
    }
  }

  /**
   * The rows of `m` that satisfy `keep`, each exactly once, ordered by `rank`.
   */
  method SelectSorted<T>(m: map<int, T>, idOf: T -> int, keep: T -> bool, rank: T -> real)
    returns (r: seq<T>)
    requires Keyed(m, idOf)
    ensures forall x :: x in r ==> idOf(x) in m && m[idOf(x)] == x && keep(x)
    ensures forall k :: k in m && keep(m[k]) ==> m[k] in r
    ensures forall i, j :: 0 <= i < j < |r| ==> idOf(r[i]) != idOf(r[j])
    ensures SortedBy(r, rank)
  {
    r := [];
    var todo := m.Keys;
    while todo != {}
      invariant todo <= m.Keys
      invariant forall x :: x in r ==> idOf(x) in m && m[idOf(x)] == x && keep(x) && idOf(x) !in todo
      invariant forall k :: k in m && keep(m[k]) && k !in todo ==> m[k] in r
      invariant forall i, j :: 0 <= i < j < |r| ==> idOf(r[i]) != idOf(r[j])
      invariant SortedBy(r, rank)
      decreases |todo|
    {
      var k := Pick(todo);
      todo := todo - {k};
      if keep(m[k]) {
        var p := InsertionPoint(r, m[k], rank);
        InsertKeepsSorted(r, m[k], rank, p);
        InsertKeepsDistinct(r, m[k], idOf, p);
        ghost var old_r := r;
        r := r[..p] + [m[k]] + r[p..];
        assert forall x :: x in r <==> x in old_r || x == m[k] by {
          assert old_r == old_r[..p] + old_r[p..];
        }
      }
    }
  }

  /** The smallest key whose row satisfies `keep`, or `None` when no row does. */
  method FirstMatch<T>(m: map<int, T>, keep: T -> bool) returns (r: Option<int>)
    ensures r.None? <==> forall k :: k in m ==> !keep(m[k])
    ensures r.Some? ==> r.value in m && keep(m[r.value])
    ensures r.Some? ==> forall k :: k in m && keep(m[k]) ==> r.value <= k
  {
    r := None;
    var todo := m.Keys;
    while todo != {}
      invariant todo <= m.Keys
      invariant r.None? ==> forall k :: k in m && k !in todo ==> !keep(m[k])
      invariant r.Some? ==> r.value in m && keep(m[r.value])
      invariant r.Some? ==> forall k :: k in m && keep(m[k]) && k !in todo ==> r.value <= k
      decreases |todo|
    {
      var k := Pick(todo);
      todo := todo - {k};
      if keep(m[k]) && (r.None? || k < r.value) {
        r := Some(k);
      }
    }
  }
}
