/** Append-only tables: rows are named by their position, and queries select them in that order. */
module Tables {

  /** The ids of the rows that satisfy `p`, in id order. */
  function Where<T>(rows: seq<T>, p: T -> bool): (ids: seq<nat>)
    ensures forall k | 0 <= k < |ids| :: ids[k] < |rows| && p(rows[ids[k]])
    ensures forall j, k | 0 <= j < k < |ids| :: ids[j] < ids[k]
  {
    if rows == [] then []
    else
      var last := |rows| - 1;
      if p(rows[last]) then Where(rows[..last], p) + [last] else Where(rows[..last], p)
  }

  lemma WhereSnoc<T>(rows: seq<T>, x: T, p: T -> bool)
    ensures Where(rows + [x], p) == if p(x) then Where(rows, p) + [|rows|] else Where(rows, p)
  {
    assert (rows + [x])[..|rows|] == rows;
  }

  lemma {:induction false} WhereComplete<T>(rows: seq<T>, p: T -> bool, i: nat)
    requires i < |rows| && p(rows[i])
    ensures i in Where(rows, p)
  {
    var last := |rows| - 1;
    if i < last {
      WhereComplete(rows[..last], p, i);
    }
  }

  lemma WhereNone<T>(rows: seq<T>, p: T -> bool)
    requires forall i | 0 <= i < |rows| :: !p(rows[i])
    ensures Where(rows, p) == []
  {
  }

  /** The rows themselves. */
  function Select<T>(rows: seq<T>, p: T -> bool): (selected: seq<T>)
    ensures forall k | 0 <= k < |selected| :: p(selected[k])
  {
    if rows == [] then []
    else
      var last := rows[|rows| - 1];
      var before := Select(rows[..|rows| - 1], p);
      if p(last) then before + [last] else before
  }

  lemma SelectSnoc<T>(rows: seq<T>, x: T, p: T -> bool)
    ensures Select(rows + [x], p) == if p(x) then Select(rows, p) + [x] else Select(rows, p)
  {
    assert (rows + [x])[..|rows|] == rows;
  }

  lemma SelectNone<T>(rows: seq<T>, p: T -> bool)
    requires forall i | 0 <= i < |rows| :: !p(rows[i])
    ensures Select(rows, p) == []
  {
  }
}
