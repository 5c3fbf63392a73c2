/**
 Keyset pagination over a fixed snapshot: a page is the first rows after a cursor, found by a
 filter on the sort key rather than by an offset. Rows are represented by their sort keys.
 */
module KeysetPages {
  import opened Wrappers

  /** A strict total order, as "ORDER BY" with a unique last column gives. */
  ghost predicate StrictOrder<K(!new)>(before: (K, K) -> bool) {
    && (forall a, b :: before(a, b) ==> !before(b, a))
    && (forall a, b, c :: before(a, b) && before(b, c) ==> before(a, c))
    && (forall a, b :: a == b || before(a, b) || before(b, a))
  }

  /** The cursor filter selects what comes after the cursor in that order. */
  ghost predicate SelectsAfter<K(!new)>(before: (K, K) -> bool, after: (K, K) -> bool) {
    forall row, cursor :: after(row, cursor) <==> before(cursor, row)
  }

  predicate Distinct<K(==)>(rows: seq<K>) {
    forall i, j | 0 <= i < j < |rows| :: rows[i] != rows[j]
  }

  predicate Increasing<K>(rows: seq<K>, before: (K, K) -> bool) {
    forall i, j | 0 <= i < j < |rows| :: before(rows[i], rows[j])
  }

  // ---- The query ----

  function Insert<K>(row: K, rows: seq<K>, before: (K, K) -> bool): seq<K> {
    if rows == [] then [row]
    else if before(row, rows[0]) then [row] + rows
    else [rows[0]] + Insert(row, rows[1..], before)
  }

  function Sorted<K>(rows: seq<K>, before: (K, K) -> bool): seq<K> {
    if rows == [] then [] else Insert(rows[0], Sorted(rows[1..], before), before)
  }

  function Matching<K>(rows: seq<K>, after: (K, K) -> bool, cursor: Option<K>): seq<K> {
    if rows == [] then []
    else if cursor.None? || after(rows[0], cursor.value) then [rows[0]] + Matching(rows[1..], after, cursor)
    else Matching(rows[1..], after, cursor)
  }

  datatype Page<K> = Page(items: seq<K>, next: Option<K>)

  function FirstOf<K>(rows: seq<K>, limit: nat): seq<K> {
    if |rows| <= limit then rows else rows[..limit]
  }

  /** Fetches one row more than the limit, to know whether there is another page. */
  function PageAfter<K>(rows: seq<K>, before: (K, K) -> bool, after: (K, K) -> bool, cursor: Option<K>, limit: nat)
    : Page<K>
  {
    var found := FirstOf(Sorted(Matching(rows, after, cursor), before), limit + 1);
    var visible := FirstOf(found, limit);
    Page(visible, if |found| > limit && visible != [] then Some(visible[|visible| - 1]) else None)
  }

  // ---- Sorting ----

  lemma {:induction false} InsertIncreases<K(!new)>(row: K, rows: seq<K>, before: (K, K) -> bool)
    requires StrictOrder(before) && Increasing(rows, before) && row !in rows
    ensures Increasing(Insert(row, rows, before), before)
    ensures forall x :: x in Insert(row, rows, before) <==> x in rows || x == row
    ensures |Insert(row, rows, before)| == |rows| + 1
  {
    if rows != [] && !before(row, rows[0]) {
      InsertIncreases(row, rows[1..], before);
      var rest := Insert(row, rows[1..], before);
      assert rows == [rows[0]] + rows[1..];
      forall i | 0 <= i < |rest| ensures before(rows[0], rest[i]) {
        assert rest[i] in rest;
      }
    }
  }

  lemma {:induction false} SortedIncreases<K(!new)>(rows: seq<K>, before: (K, K) -> bool)
    requires StrictOrder(before) && Distinct(rows)
    ensures Increasing(Sorted(rows, before), before)
    ensures forall x :: x in Sorted(rows, before) <==> x in rows
    ensures |Sorted(rows, before)| == |rows|
  {
    if rows != [] {
      SortedIncreases(rows[1..], before);
      assert rows == [rows[0]] + rows[1..];
      InsertIncreases(rows[0], Sorted(rows[1..], before), before);
    }
  }

  /** An increasing sequence is determined by its members. */
  lemma {:induction false} SameMembers<K(!new)>(a: seq<K>, b: seq<K>, before: (K, K) -> bool)
    requires StrictOrder(before) && Increasing(a, before) && Increasing(b, before)
    requires forall x :: x in a <==> x in b
    ensures a == b
  {
    if a == [] {
      if b != [] {
        FirstIsMember(b);
      }
    } else {
      assert a[0] in b && b[0] in a;
      assert a[0] == b[0];
      assert forall x :: x in a[1..] <==> x in a && x != a[0];
      assert forall x :: x in b[1..] <==> x in b && x != b[0];
      SameMembers(a[1..], b[1..], before);
    }
  }

  lemma FirstIsMember<K>(rows: seq<K>)
    requires rows != []
    ensures rows[0] in rows
  {
  }

  lemma {:induction false} MatchingMembers<K(!new)>(rows: seq<K>, after: (K, K) -> bool, cursor: Option<K>)
    requires Distinct(rows)
    ensures Distinct(Matching(rows, after, cursor))
    ensures forall x :: x in Matching(rows, after, cursor) <==> x in rows && (cursor.None? || after(x, cursor.value))
  {
    if rows != [] {
      MatchingMembers(rows[1..], after, cursor);
      assert rows == [rows[0]] + rows[1..];
      var rest := Matching(rows[1..], after, cursor);
      assert forall i | 0 <= i < |rest| :: rest[i] in rest;
      assert forall i | 0 < i < |rows| :: rows[i] != rows[0];
    }
  }

  /** The cursor that stands at position `k` of the sorted list. */
  function CursorAt<K>(sorted: seq<K>, k: nat): Option<K>
    requires k <= |sorted|
  {
    if k == 0 then None else Some(sorted[k - 1])
  }

  /** What follows the cursor: everything, or the sorted list behind the cursor's row. */
  lemma AfterCursor<K(!new)>(rows: seq<K>, before: (K, K) -> bool, after: (K, K) -> bool, k: nat)
    requires StrictOrder(before) && SelectsAfter(before, after) && Distinct(rows) && k <= |Sorted(rows, before)|
    ensures Sorted(Matching(rows, after, CursorAt(Sorted(rows, before), k)), before) == Sorted(rows, before)[k..]
  {
    SortedIncreases(rows, before);
    var sorted := Sorted(rows, before);
    var cursor := CursorAt(sorted, k);
    MatchingMembers(rows, after, cursor);
    var matching := Matching(rows, after, cursor);
    SortedIncreases(matching, before);
    forall x ensures x in Sorted(matching, before) <==> x in sorted[k..] {
      BehindCursor(sorted, before, k, x);
    }
    SameMembers(Sorted(matching, before), sorted[k..], before);
  }

  lemma BehindCursor<K(!new)>(sorted: seq<K>, before: (K, K) -> bool, k: nat, x: K)
    requires StrictOrder(before) && Increasing(sorted, before) && k <= |sorted|
    ensures x in sorted[k..] <==> x in sorted && (k == 0 || before(sorted[k - 1], x))
  {
    if x in sorted {
      var i :| 0 <= i < |sorted| && sorted[i] == x;
      if i >= k {
        assert sorted[k..][i - k] == x;
      }
    }
  }

  // ---- Following cursors ----

  lemma FirstOfMore<K>(rows: seq<K>, limit: nat)
    requires limit >= 1
    ensures var found := FirstOf(rows, limit + 1);
            && FirstOf(found, limit) == FirstOf(rows, limit)
            && (|found| > limit <==> |rows| > limit)
  {
    if |rows| > limit + 1 {
      assert rows[..limit + 1][..limit] == rows[..limit];
    }
  }

  lemma PageAt<K(!new)>(rows: seq<K>, before: (K, K) -> bool, after: (K, K) -> bool, limit: nat, k: nat)
    requires StrictOrder(before) && SelectsAfter(before, after) && Distinct(rows) && limit >= 1
    requires k <= |Sorted(rows, before)|
    ensures PageAfter(rows, before, after, CursorAt(Sorted(rows, before), k), limit)
            == Stretch(Sorted(rows, before), k, limit)
  {
    AfterCursor(rows, before, after, k);
    var sorted := Sorted(rows, before);
    FirstOfMore(sorted[k..], limit);
    if |sorted| - k > limit {
      assert sorted[k..][..limit] == sorted[k..k + limit];
    }
  }

  /** Reading page after page, each fetched with the cursor of the one before, until one has no cursor. */
  ghost predicate Follows<K(!new)>(fetch: Option<K> -> Page<K>, cursor: Option<K>, pages: seq<seq<K>>)
    decreases |pages|
  {
    pages != []
    && pages[0] == fetch(cursor).items
    && if fetch(cursor).next.None? then |pages| == 1 else Follows(fetch, fetch(cursor).next, pages[1..])
  }

  function Fetch<K>(rows: seq<K>, before: (K, K) -> bool, after: (K, K) -> bool, limit: nat): Option<K> -> Page<K> {
    cursor => PageAfter(rows, before, after, cursor, limit)
  }

  function Concat<K>(pages: seq<seq<K>>): seq<K> {
    if pages == [] then [] else pages[0] + Concat(pages[1..])
  }

  function PagesFor(n: nat, limit: nat): nat
    requires limit >= 1
  {
    if n <= limit then 1 else 1 + PagesFor(n - limit, limit)
  }

  /** A page in front of the pages that its cursor leads to. */
  lemma ThenPages<K(!new)>(fetch: Option<K> -> Page<K>, cursor: Option<K>, rest: seq<seq<K>>)
    requires if fetch(cursor).next.None? then rest == [] else Follows(fetch, fetch(cursor).next, rest)
    ensures Follows(fetch, cursor, [fetch(cursor).items] + rest)
  {
    assert ([fetch(cursor).items] + rest)[1..] == rest;
  }

  /** At every position of `sorted`, the page after that cursor is the next stretch of it. */
  ghost predicate Paged<K(!new)>(fetch: Option<K> -> Page<K>, limit: nat, sorted: seq<K>) {
    forall k | 0 <= k <= |sorted| :: fetch(CursorAt(sorted, k)) == Stretch(sorted, k, limit)
  }

  function Stretch<K>(sorted: seq<K>, k: nat, limit: nat): Page<K>
    requires k <= |sorted|
  {
    if |sorted| - k <= limit then Page(sorted[k..], None) else Page(sorted[k..k + limit], CursorAt(sorted, k + limit))
  }

  /** A list cut into stretches. */
  function Cut<K>(sorted: seq<K>, k: nat, limit: nat): seq<seq<K>>
    requires k <= |sorted| && limit >= 1
    decreases |sorted| - k
  {
    if |sorted| - k <= limit then [sorted[k..]] else [sorted[k..k + limit]] + Cut(sorted, k + limit, limit)
  }

  lemma {:induction false} CutIsWhole<K>(sorted: seq<K>, k: nat, limit: nat)
    requires k <= |sorted| && limit >= 1
    ensures Concat(Cut(sorted, k, limit)) == sorted[k..]
    ensures |Cut(sorted, k, limit)| == PagesFor(|sorted| - k, limit)
    decreases |sorted| - k
  {
    if |sorted| - k <= limit {
      assert Cut(sorted, k, limit)[1..] == [];
      assert sorted[k..] + [] == sorted[k..];
    } else {
      CutIsWhole(sorted, k + limit, limit);
      assert Cut(sorted, k, limit)[1..] == Cut(sorted, k + limit, limit);
      assert sorted[k..k + limit] + sorted[k + limit..] == sorted[k..];
    }
  }

  /** Following the cursors ends, and gives the stretches of the sorted list. */
  lemma {:induction false} FollowingCuts<K(!new)>(fetch: Option<K> -> Page<K>, limit: nat, sorted: seq<K>, k: nat)
    requires Paged(fetch, limit, sorted) && limit >= 1 && k <= |sorted|
    ensures Follows(fetch, CursorAt(sorted, k), Cut(sorted, k, limit))
    decreases |sorted| - k
  {
    assert fetch(CursorAt(sorted, k)) == Stretch(sorted, k, limit);
    if |sorted| - k <= limit {
      ThenPages(fetch, CursorAt(sorted, k), []);
      assert Cut(sorted, k, limit) == [sorted[k..]] + [];
    } else {
      FollowingCuts(fetch, limit, sorted, k + limit);
      ThenPages(fetch, CursorAt(sorted, k), Cut(sorted, k + limit, limit));
    }
  }

  /** The chain of pages is determined by what is fetched. */
  lemma {:induction false} PagesUnique<K(!new)>(fetch: Option<K> -> Page<K>, cursor: Option<K>, a: seq<seq<K>>,
                                                b: seq<seq<K>>)
    requires Follows(fetch, cursor, a) && Follows(fetch, cursor, b)
    ensures a == b
    decreases |a|
  {
    if fetch(cursor).next.Some? {
      PagesUnique(fetch, fetch(cursor).next, a[1..], b[1..]);
      assert a == [a[0]] + a[1..] && b == [b[0]] + b[1..];
    }
  }

  lemma SnapshotIsPaged<K(!new)>(rows: seq<K>, before: (K, K) -> bool, after: (K, K) -> bool, limit: nat)
    requires StrictOrder(before) && SelectsAfter(before, after) && Distinct(rows) && limit >= 1
    ensures Paged(Fetch(rows, before, after, limit), limit, Sorted(rows, before))
  {
    var sorted := Sorted(rows, before);
    forall k | 0 <= k <= |sorted|
      ensures Fetch(rows, before, after, limit)(CursorAt(sorted, k)) == Stretch(sorted, k, limit)
    {
      PageAt(rows, before, after, limit, k);
    }
  }

  /** Following the cursors from the start comes to an end. */
  lemma FollowingEnds<K(!new)>(rows: seq<K>, before: (K, K) -> bool, after: (K, K) -> bool, limit: nat)
    requires StrictOrder(before) && SelectsAfter(before, after) && Distinct(rows) && limit >= 1
    ensures exists pages :: Follows(Fetch(rows, before, after, limit), None, pages)
  {
    SnapshotIsPaged(rows, before, after, limit);
    FollowingCuts(Fetch(rows, before, after, limit), limit, Sorted(rows, before), 0);
  }

  lemma CutFromStart<K(!new)>(fetch: Option<K> -> Page<K>, limit: nat, sorted: seq<K>)
    requires Paged(fetch, limit, sorted) && limit >= 1
    ensures Follows(fetch, None, Cut(sorted, 0, limit))
  {
    FollowingCuts(fetch, limit, sorted, 0);
    assert CursorAt(sorted, 0) == None;
  }

  lemma PagesAreCuts<K(!new)>(fetch: Option<K> -> Page<K>, limit: nat, sorted: seq<K>, pages: seq<seq<K>>)
    requires Paged(fetch, limit, sorted) && limit >= 1 && Follows(fetch, None, pages)
    ensures Concat(pages) == sorted && |pages| == PagesFor(|sorted|, limit)
  {
    CutFromStart(fetch, limit, sorted);
    PagesUnique(fetch, None, Cut(sorted, 0, limit), pages);
    CutIsWhole(sorted, 0, limit);
    assert sorted[0..] == sorted;
  }

  /**
   Whoever follows the cursors to the end has read the whole sorted list; sorting keeps every row
   once and puts it in order (SortedIncreases).
   */
  lemma PagesAreTheSortedList<K(!new)>(rows: seq<K>, before: (K, K) -> bool, after: (K, K) -> bool, limit: nat,
                                       pages: seq<seq<K>>)
    requires StrictOrder(before) && SelectsAfter(before, after) && Distinct(rows) && limit >= 1
    requires Follows(Fetch(rows, before, after, limit), None, pages)
    ensures Concat(pages) == Sorted(rows, before)
    ensures |pages| == PagesFor(|Sorted(rows, before)|, limit)
  {
    SnapshotIsPaged(rows, before, after, limit);
    PagesAreCuts(Fetch(rows, before, after, limit), limit, Sorted(rows, before), pages);
  }
}
