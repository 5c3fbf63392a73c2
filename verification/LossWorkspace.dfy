/**
 The workspace of lost opportunities: the current losses that pass a filter, read page by page,
 against the ledger they come from.
 */
module LossWorkspace {
  import opened Wrappers
  import opened Tables
  import opened OpportunityLedger
  import opened LedgerInvariant
  import opened LedgerTheorems
  import opened LossStatistics
  import opened PageCursors
  import KeysetPages

  /** Ids of stored losses start at one. */
  function KeyOf(l: Ledger, i: nat): LossKey
    requires i < |l.losses|
  {
    LossKey(l.losses[i].at, i + 1)
  }

  predicate Shown(l: Ledger, passes: Loss -> bool, current: set<nat>, i: nat) {
    i < |l.losses| && passes(l.losses[i]) && i in current
  }

  /** Sort keys of the losses in `current` that pass. */
  function Keys(l: Ledger, passes: Loss -> bool, current: set<nat>, upTo: nat): (rows: seq<LossKey>)
    requires upTo <= |l.losses|
    ensures forall n | 0 <= n < |rows| :: 0 < rows[n].id <= upTo
    ensures forall m, n | 0 <= m < n < |rows| :: rows[m].id < rows[n].id
  {
    if upTo == 0 then []
    else
      var before := Keys(l, passes, current, upTo - 1);
      if Shown(l, passes, current, upTo - 1) then before + [KeyOf(l, upTo - 1)] else before
  }

  lemma {:induction false} KeysMembers(l: Ledger, passes: Loss -> bool, current: set<nat>, upTo: nat, key: LossKey)
    requires upTo <= |l.losses|
    ensures key in Keys(l, passes, current, upTo)
            <==> 0 < key.id <= upTo && Shown(l, passes, current, key.id - 1) && key == KeyOf(l, key.id - 1)
  {
    if upTo > 0 {
      KeysMembers(l, passes, current, upTo - 1, key);
    }
  }

  lemma {:induction false} KeysCount(l: Ledger, passes: Loss -> bool, current: set<nat>, upTo: nat)
    requires upTo <= |l.losses|
    ensures |Keys(l, passes, current, upTo)| == CountIn(Where(l.losses[..upTo], passes), current)
  {
    if upTo > 0 {
      KeysCount(l, passes, current, upTo - 1);
      KeysStep(l, passes, current, upTo - 1);
      CountStep(l.losses, passes, current, upTo - 1);
    }
  }

  lemma KeysStep(l: Ledger, passes: Loss -> bool, current: set<nat>, n: nat)
    requires n < |l.losses|
    ensures |Keys(l, passes, current, n + 1)|
         == |Keys(l, passes, current, n)| + if passes(l.losses[n]) && n in current then 1 else 0
  {
  }

  lemma CountStep(losses: seq<Loss>, passes: Loss -> bool, current: set<nat>, n: nat)
    requires n < |losses|
    ensures CountIn(Where(losses[..n + 1], passes), current)
         == CountIn(Where(losses[..n], passes), current) + if passes(losses[n]) && n in current then 1 else 0
  {
    assert losses[..n + 1] == losses[..n] + [losses[n]];
    WhereSnoc(losses[..n], losses[n], passes);
    CountSnoc(Where(losses[..n], passes), n, current);
  }

  lemma CountSnoc(ids: seq<nat>, id: nat, keep: set<nat>)
    ensures CountIn(ids + [id], keep) == CountIn(ids, keep) + if id in keep then 1 else 0
  {
    assert (ids + [id])[..|ids|] == ids;
  }

  function Workspace(l: Ledger, passes: Loss -> bool): seq<LossKey> {
    Keys(l, passes, CurrentIds(l), |l.losses|)
  }

  lemma WorkspaceCanBeRead(tt: TimeText, l: Ledger, passes: Loss -> bool, limit: nat)
    requires Faithful(tt) && limit >= 1
    ensures exists pages :: ReadsLosses(tt, Workspace(l, passes), limit, None, pages)
  {
    LossesReadingEnds(tt, Workspace(l, passes), limit);
  }

  /**
   Reading the workspace to its end gives exactly the current losses that pass the filter, newest
   first, and as many as the statistics count as current for the same filter.
   */
  lemma WorkspaceReadOnce(tt: TimeText, l: Ledger, passes: Loss -> bool, limit: nat, pages: seq<seq<LossKey>>)
    requires Faithful(tt) && limit >= 1
    requires ReadsLosses(tt, Workspace(l, passes), limit, None, pages)
    ensures KeysetPages.Increasing(KeysetPages.Concat(pages), LossBefore)
    ensures forall key :: key in KeysetPages.Concat(pages)
                          <==> 0 < key.id <= |l.losses| && Shown(l, passes, CurrentIds(l), key.id - 1)
                               && key == KeyOf(l, key.id - 1)
    ensures |KeysetPages.Concat(pages)| == CountIn(Where(l.losses, passes), CurrentIds(l))
    ensures forall m, n | 0 <= m < n < |KeysetPages.Concat(pages)| ::
              var a, b := KeysetPages.Concat(pages)[m], KeysetPages.Concat(pages)[n];
              if a.at != b.at then a.at > b.at else a.id > b.id
  {
    var rows := Workspace(l, passes);
    LossesReadOnce(tt, rows, limit, pages);
    FiltersFollowOrders();
    KeysetPages.SortedIncreases(rows, LossBefore);
    KeysCount(l, passes, CurrentIds(l), |l.losses|);
    assert l.losses[..|l.losses|] == l.losses;
    forall key
      ensures key in rows
              <==> 0 < key.id <= |l.losses| && Shown(l, passes, CurrentIds(l), key.id - 1)
                   && key == KeyOf(l, key.id - 1)
    {
      KeysMembers(l, passes, CurrentIds(l), |l.losses|, key);
    }
  }

  /** In every ledger that can arise, each live lost opportunity has exactly one current loss, its newest. */
  lemma LostOpportunityHasOneRow(l: Ledger, actions: seq<Action>, id: OpportunityId)
    requires Empty(l) && Available(Run(l, actions), id) && Run(l, actions).opportunities[id].status.Perdida?
    ensures var t := Run(l, actions);
            && LatestLoss(t.losses, id).Some? && LatestLoss(t.losses, id).value in CurrentIds(t)
            && forall i | i in CurrentIds(t) && t.losses[i].opportunity == id :: i == LatestLoss(t.losses, id).value
  {
    Reachable(l, actions);
    var t := Run(l, actions);
    assert OpportunityInv(t, id);
    LatestIsLast(t.losses, id);
  }
}
