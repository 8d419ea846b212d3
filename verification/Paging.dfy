/** Keyset paging: a page is the first rows after the cursor in a strict order, and the cursor of
    the next page is the last row of this one. */
module Paging {
  import opened Prelude

  ghost predicate StrictOrder<T(!new)>(before: (T, T) -> bool) {
    && (forall x :: !before(x, x))
    && (forall x, y, z :: before(x, y) && before(y, z) ==> before(x, z))
  }

  ghost predicate TotalOn<T(!new)>(before: (T, T) -> bool, rows: seq<T>) {
    forall x, y :: x in rows && y in rows && x != y ==> before(x, y) || before(y, x)
  }

  ghost predicate Sorted<T>(before: (T, T) -> bool, s: seq<T>) {
    forall i, j :: 0 <= i < j < |s| ==> before(s[i], s[j])
  }

  /** The simple listing: the rows that qualify, each once, in order. */
  ghost predicate IsListing<T(!new)>(before: (T, T) -> bool, rows: seq<T>, keep: T -> bool, list: seq<T>) {
    Sorted(before, list) && forall x :: x in list <==> x in rows && keep(x)
  }

  function Insert<T>(before: (T, T) -> bool, x: T, s: seq<T>): seq<T> {
    if s == [] then [x] else if before(x, s[0]) then [x] + s else [s[0]] + Insert(before, x, s[1..])
  }

  function OrderBy<T>(before: (T, T) -> bool, rows: seq<T>): seq<T> {
    if rows == [] then [] else Insert(before, rows[0], OrderBy(before, rows[1..]))
  }

  function Take<T>(s: seq<T>, n: nat): seq<T> {
    if n < |s| then s[..n] else s
  }

  /** findMany: filter, order, take. */
  function Query<T>(before: (T, T) -> bool, rows: seq<T>, keep: T -> bool, take: nat): seq<T> {
    Take(OrderBy(before, Filter(rows, keep)), take)
  }

  lemma {:induction false} InsertKeepsOrder<T(!new)>(before: (T, T) -> bool, x: T, s: seq<T>)
    requires StrictOrder(before) && Sorted(before, s)
    requires forall y :: y in s ==> before(x, y) || before(y, x)
    ensures Sorted(before, Insert(before, x, s))
    ensures forall y :: y in Insert(before, x, s) <==> y == x || y in s
  {
    if s != [] {
      var head, tail := s[0], s[1..];
      assert s == [head] + tail && head in s;
      if before(x, head) {
        forall j | 0 <= j < |s| ensures before(x, s[j]) {
          if j > 0 { assert before(head, s[j]); }
        }
      } else {
        InTail(s, 1);
        InsertKeepsOrder(before, x, tail);
        var rest := Insert(before, x, tail);
        forall j | 0 <= j < |rest| ensures before(head, rest[j]) {
          assert rest[j] in rest;
          if rest[j] in tail {
            var i :| 0 <= i < |tail| && tail[i] == rest[j];
            assert s[i + 1] == rest[j];
          }
        }
      }
    }
  }

  lemma {:induction false} OrderByLists<T(!new)>(before: (T, T) -> bool, rows: seq<T>)
    requires StrictOrder(before) && Distinct(rows) && TotalOn(before, rows)
    ensures Sorted(before, OrderBy(before, rows))
    ensures forall x :: x in OrderBy(before, rows) <==> x in rows
  {
    if rows != [] {
      var head, tail := rows[0], rows[1..];
      assert rows == [head] + tail;
      InTail(rows, 1);
      assert forall i :: 0 <= i < |tail| ==> tail[i] == rows[i + 1];
      OrderByLists(before, tail);
      assert head in rows && head !in tail;
      InsertKeepsOrder(before, head, OrderBy(before, tail));
    }
  }

  lemma {:induction false} FilterDistinct<T(!new)>(rows: seq<T>, keep: T -> bool)
    requires Distinct(rows)
    ensures Distinct(Filter(rows, keep))
  {
    if rows != [] {
      var head, tail := rows[0], rows[1..];
      assert forall i :: 0 <= i < |tail| ==> tail[i] == rows[i + 1];
      assert head !in tail;
      FilterDistinct(tail, keep);
      FilterIn(tail, keep);
    }
  }

  /** An unbounded query returns the listing. */
  lemma QueryLists<T(!new)>(before: (T, T) -> bool, rows: seq<T>, keep: T -> bool)
    requires StrictOrder(before) && Distinct(rows) && TotalOn(before, rows)
    ensures IsListing(before, rows, keep, OrderBy(before, Filter(rows, keep)))
  {
    FilterDistinct(rows, keep);
    FilterIn(rows, keep);
    OrderByLists(before, Filter(rows, keep));
  }

  lemma TailMembers<T(!new)>(before: (T, T) -> bool, s: seq<T>, k: nat)
    requires StrictOrder(before) && Sorted(before, s) && 0 < k <= |s|
    ensures forall x :: x in s[k..] <==> x in s && before(s[k - 1], x)
    ensures Sorted(before, s[k..])
  {
    forall x | x in s && before(s[k - 1], x) ensures x in s[k..] {
      var i :| 0 <= i < |s| && s[i] == x;
      assert forall j :: 0 <= j < k - 1 ==> before(s[j], s[k - 1]);
      assert s[k..][i - k] == x;
    }
    forall x | x in s[k..] ensures x in s && before(s[k - 1], x) {
      var i :| 0 <= i < |s[k..]| && s[k..][i] == x;
      assert s[k + i] == x;
    }
  }

  /** There is only one listing. */
  lemma {:induction false} ListingUnique<T(!new)>(before: (T, T) -> bool, a: seq<T>, b: seq<T>)
    requires StrictOrder(before) && Sorted(before, a) && Sorted(before, b)
    requires forall x :: x in a <==> x in b
    ensures a == b
  {
    assert b == [] || b[0] in b;
    if a != [] {
      assert a[0] in b && b[0] in a;
      var i :| 0 <= i < |b| && b[i] == a[0];
      var j :| 0 <= j < |a| && a[j] == b[0];
      assert a[0] == b[0];
      TailMembers(before, a, 1);
      TailMembers(before, b, 1);
      ListingUnique(before, a[1..], b[1..]);
      assert a == [a[0]] + a[1..] && b == [b[0]] + b[1..];
    }
  }

  /** A query for the rows strictly after one of the listing returns what follows it there. */
  lemma QueryAfter<T(!new)>(before: (T, T) -> bool, rows: seq<T>, visible: T -> bool, list: seq<T>, k: nat,
                            keep: T -> bool, take: nat)
    requires StrictOrder(before) && Distinct(rows) && TotalOn(before, rows)
    requires IsListing(before, rows, visible, list) && 0 < k <= |list|
    requires forall x :: keep(x) <==> visible(x) && before(list[k - 1], x)
    ensures Query(before, rows, keep, take) == Take(list[k..], take)
  {
    QueryLists(before, rows, keep);
    TailMembers(before, list, k);
    ListingUnique(before, OrderBy(before, Filter(rows, keep)), list[k..]);
  }

  /** A query without cursor returns the beginning of the listing. */
  lemma QueryFirst<T(!new)>(before: (T, T) -> bool, rows: seq<T>, visible: T -> bool, list: seq<T>, take: nat)
    requires StrictOrder(before) && Distinct(rows) && TotalOn(before, rows) && IsListing(before, rows, visible, list)
    ensures Query(before, rows, visible, take) == Take(list, take)
  {
    QueryLists(before, rows, visible);
    ListingUnique(before, OrderBy(before, Filter(rows, visible)), list);
  }

  /** The arithmetic of asking for one row more than the page shows. */
  lemma PageOfListing<T>(list: seq<T>, k: nat, limit: nat)
    requires limit >= 1 && k <= |list|
    ensures var got := Take(list[k..], limit + 1); var page := Take(got, limit); var next := k + |page|;
      && next <= |list| && page == list[k..next]
      && (|got| > limit <==> next < |list|)
      && (k < |list| ==> page != [] && page[|page| - 1] == list[next - 1])
  {
  }

  /** A page: the first `limit` of the rows that qualify, in order, and whether there are more. */
  ghost predicate IsPage<T(!new)>(before: (T, T) -> bool, rows: seq<T>, keep: T -> bool, limit: nat, page: seq<T>, more: bool) {
    exists list :: IsListing(before, rows, keep, list) && page == Take(list, limit) && (more <==> |list| > limit)
  }

  lemma QueryIsPage<T(!new)>(before: (T, T) -> bool, rows: seq<T>, keep: T -> bool, limit: nat)
    requires StrictOrder(before) && Distinct(rows) && TotalOn(before, rows)
    ensures var got := Query(before, rows, keep, limit + 1); IsPage(before, rows, keep, limit, Take(got, limit), |got| > limit)
  {
    hide OrderBy, Filter, StrictOrder, TotalOn, Distinct;
    QueryLists(before, rows, keep);
    var list := OrderBy(before, Filter(rows, keep));
    assert Take(Take(list, limit + 1), limit) == Take(list, limit);
  }

  lemma SamePage<T(!new)>(before: (T, T) -> bool, rows: seq<T>, keep: T -> bool, also: T -> bool, limit: nat)
    requires forall x :: keep(x) == also(x)
    ensures forall page, more :: IsPage(before, rows, keep, limit, page, more) ==> IsPage(before, rows, also, limit, page, more)
  {
    forall page, more | IsPage(before, rows, keep, limit, page, more) ensures IsPage(before, rows, also, limit, page, more) {
      var list :| IsListing(before, rows, keep, list) && page == Take(list, limit) && (more <==> |list| > limit);
      assert IsListing(before, rows, also, list);
    }
  }
}
