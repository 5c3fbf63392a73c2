/** What the ledger guarantees after every sequence of operations on an empty ledger. */
module LedgerTheorems {
  import opened Wrappers
  import opened Tables
  import opened OpportunityLedger
  import opened LedgerInvariant

  lemma Reachable(l: Ledger, actions: seq<Action>)
    requires Empty(l)
    ensures LedgerInv(Run(l, actions))
  {
    RunKeeps(l, actions);
  }

  /** The history of an opportunity is a chain of permitted transitions from NUEVA to where it stands. */
  lemma HistoryIsAChain(l: Ledger, actions: seq<Action>, id: OpportunityId)
    requires Empty(l) && id < |Run(l, actions).opportunities|
    ensures var t := Run(l, actions);
            var trail := Trail(t, id);
            && trail != []
            && StartsAtNueva(t.history[trail[0]])
            && (forall k | 0 < k < |trail| :: Follows(t.history[trail[k - 1]], t.history[trail[k]]))
            && t.history[trail[|trail| - 1]].toStatus == t.opportunities[id].status
            && t.history[trail[|trail| - 1]].at == t.opportunities[id].enteredAt
  {
    Reachable(l, actions);
    assert OpportunityInv(Run(l, actions), id);
  }

  /** The k-th loss of an opportunity is event `i`, and its history row is the swing at place 2k. */
  predicate LossPlaced(t: Ledger, id: OpportunityId, k: nat, i: nat) {
    && k < |LossesOf(t, id)| && LossesOf(t, id)[k] == i < |t.losses| && t.losses[i].opportunity == id
    && 2 * k < |Swings(t, id)| && Swings(t, id)[2 * k] == t.losses[i].history < |t.history|
    && t.history[t.losses[i].history].opportunity == id && t.history[t.losses[i].history].kind.Lost?
  }

  /** The k-th reopening is event `i`, it names the k-th loss, and its history row is the next swing. */
  predicate ReopenPlaced(t: Ledger, id: OpportunityId, k: nat, i: nat) {
    && k < |ReopensOf(t, id)| && ReopensOf(t, id)[k] == i < |t.reopens| && t.reopens[i].opportunity == id
    && LossPlaced(t, id, k, t.reopens[i].loss)
    && 2 * k + 1 < |Swings(t, id)| && Swings(t, id)[2 * k + 1] == t.reopens[i].history < |t.history|
    && t.history[t.reopens[i].history].opportunity == id && t.history[t.reopens[i].history].kind.Reopened?
  }

  lemma PlaceLoss(t: Ledger, id: OpportunityId, k: nat)
    requires id < |t.opportunities| && SwingInv(t, id) && k < |LossesOf(t, id)|
    ensures LossPlaced(t, id, k, LossesOf(t, id)[k])
  {
    assert LossMatches(t.losses[LossesOf(t, id)[k]], t.history[Swings(t, id)[2 * k]], t.opportunities[id]);
    assert LossOfOpportunity(id)(t.losses[LossesOf(t, id)[k]]);
    assert SwingOf(id)(t.history[Swings(t, id)[2 * k]]);
  }

  lemma PlaceReopen(t: Ledger, id: OpportunityId, k: nat)
    requires id < |t.opportunities| && SwingInv(t, id) && k < |ReopensOf(t, id)|
    ensures ReopenPlaced(t, id, k, ReopensOf(t, id)[k])
  {
    PlaceLoss(t, id, k);
    assert ReopenMatches(t.reopens[ReopensOf(t, id)[k]], t.history[Swings(t, id)[2 * k + 1]]);
    assert ReopenOfOpportunity(id)(t.reopens[ReopensOf(t, id)[k]]);
    assert SwingOf(id)(t.history[Swings(t, id)[2 * k + 1]]);
  }

  lemma LossPlace(t: Ledger, i: nat) returns (k: nat)
    requires LedgerInv(t) && i < |t.losses|
    ensures LossPlaced(t, t.losses[i].opportunity, k, i)
  {
    var id := t.losses[i].opportunity;
    assert OpportunityInv(t, id);
    WhereComplete(t.losses, LossOfOpportunity(id), i);
    k :| 0 <= k < |LossesOf(t, id)| && LossesOf(t, id)[k] == i;
    PlaceLoss(t, id, k);
  }

  lemma ReopenPlace(t: Ledger, i: nat) returns (k: nat)
    requires LedgerInv(t) && i < |t.reopens|
    ensures ReopenPlaced(t, t.reopens[i].opportunity, k, i)
  {
    var id := t.reopens[i].opportunity;
    assert OpportunityInv(t, id);
    WhereComplete(t.reopens, ReopenOfOpportunity(id), i);
    k :| 0 <= k < |ReopensOf(t, id)| && ReopensOf(t, id)[k] == i;
    PlaceReopen(t, id, k);
  }

  /** A swing is a loss event at an even place and a reopening event at an odd one. */
  lemma SwingPlace(t: Ledger, id: OpportunityId, k: nat)
    requires LedgerInv(t) && id < |t.opportunities| && k < |Swings(t, id)|
    ensures if k % 2 == 0 then k / 2 < |LossesOf(t, id)| && LossPlaced(t, id, k / 2, LossesOf(t, id)[k / 2])
            else k / 2 < |ReopensOf(t, id)| && ReopenPlaced(t, id, k / 2, ReopensOf(t, id)[k / 2])
  {
    assert OpportunityInv(t, id);
    if k % 2 == 0 {
      PlaceLoss(t, id, k / 2);
    } else {
      PlaceReopen(t, id, k / 2);
    }
  }

  /** Losses and reopenings of an opportunity take turns, a loss first. */
  lemma LossesAndReopeningsAlternate(l: Ledger, actions: seq<Action>, id: OpportunityId, k: nat)
    requires Empty(l) && id < |Run(l, actions).opportunities| && k < |Swings(Run(l, actions), id)|
    ensures Run(l, actions).history[Swings(Run(l, actions), id)[k]].kind == if k % 2 == 0 then Lost else Reopened
  {
    Reachable(l, actions);
    SwingKind(Run(l, actions), id, k);
  }

  lemma SwingKind(t: Ledger, id: OpportunityId, k: nat)
    requires LedgerInv(t) && id < |t.opportunities| && k < |Swings(t, id)|
    ensures t.history[Swings(t, id)[k]].kind == if k % 2 == 0 then Lost else Reopened
  {
    SwingPlace(t, id, k);
    assert k == 2 * (k / 2) + k % 2;
  }

  predicate OneLossEvent(t: Ledger, h: nat)
    requires h < |t.history|
  {
    && (t.history[h].kind.Lost? <==> exists i | 0 <= i < |t.losses| :: t.losses[i].history == h)
    && forall i, j | 0 <= i < j < |t.losses| && t.losses[i].history == h :: t.losses[j].history != h
  }

  predicate OneReopenEvent(t: Ledger, h: nat)
    requires h < |t.history|
  {
    && (t.history[h].kind.Reopened? <==> exists i | 0 <= i < |t.reopens| :: t.reopens[i].history == h)
    && forall i, j | 0 <= i < j < |t.reopens| && t.reopens[i].history == h :: t.reopens[j].history != h
  }

  /** Every LOST history row has exactly one loss event, every REOPENED one exactly one reopen event. */
  lemma EverySwingHasOneEvent(l: Ledger, actions: seq<Action>, h: nat)
    requires Empty(l) && h < |Run(l, actions).history|
    ensures OneLossEvent(Run(l, actions), h) && OneReopenEvent(Run(l, actions), h)
  {
    Reachable(l, actions);
    LossEvents(Run(l, actions), h);
    ReopenEvents(Run(l, actions), h);
  }

  lemma LossEvents(t: Ledger, h: nat)
    requires LedgerInv(t) && h < |t.history|
    ensures OneLossEvent(t, h)
  {
    if t.history[h].kind.Lost? {
      var i := SwingOfRow(t, h);
    }
    forall i | 0 <= i < |t.losses| && t.losses[i].history == h
      ensures t.history[h].kind.Lost?
      ensures forall j | 0 <= j < |t.losses| && t.losses[j].history == h :: i == j
    {
      SameLoss(t, i, i);
      forall j | 0 <= j < |t.losses| && t.losses[j].history == h ensures i == j {
        SameLoss(t, i, j);
      }
    }
  }

  lemma SameLoss(t: Ledger, i: nat, j: nat)
    requires LedgerInv(t) && i < |t.losses| && j < |t.losses| && t.losses[i].history == t.losses[j].history
    ensures i == j && t.losses[i].history < |t.history| && t.history[t.losses[i].history].kind.Lost?
  {
    var k := LossPlace(t, i);
    var m := LossPlace(t, j);
    assert 2 * k == 2 * m;
  }

  lemma ReopenEvents(t: Ledger, h: nat)
    requires LedgerInv(t) && h < |t.history|
    ensures OneReopenEvent(t, h)
  {
    if t.history[h].kind.Reopened? {
      var i := SwingOfRow(t, h);
    }
    forall i | 0 <= i < |t.reopens| && t.reopens[i].history == h
      ensures t.history[h].kind.Reopened?
      ensures forall j | 0 <= j < |t.reopens| && t.reopens[j].history == h :: i == j
    {
      SameReopen(t, i, i);
      forall j | 0 <= j < |t.reopens| && t.reopens[j].history == h ensures i == j {
        SameReopen(t, i, j);
      }
    }
  }

  lemma SameReopen(t: Ledger, i: nat, j: nat)
    requires LedgerInv(t) && i < |t.reopens| && j < |t.reopens| && t.reopens[i].history == t.reopens[j].history
    ensures i == j && t.reopens[i].history < |t.history| && t.history[t.reopens[i].history].kind.Reopened?
  {
    var k := ReopenPlace(t, i);
    var m := ReopenPlace(t, j);
    assert 2 * k + 1 == 2 * m + 1;
  }

  /** The event behind a LOST or REOPENED history row. */
  lemma SwingOfRow(t: Ledger, h: nat) returns (i: nat)
    requires LedgerInv(t) && h < |t.history| && (t.history[h].kind.Lost? || t.history[h].kind.Reopened?)
    ensures if t.history[h].kind.Lost? then i < |t.losses| && t.losses[i].history == h
            else i < |t.reopens| && t.reopens[i].history == h
  {
    var id := t.history[h].opportunity;
    WhereComplete(t.history, SwingOf(id), h);
    var k :| 0 <= k < |Swings(t, id)| && Swings(t, id)[k] == h;
    i := EventAt(t, id, k);
  }

  lemma EventAt(t: Ledger, id: OpportunityId, k: nat) returns (i: nat)
    requires LedgerInv(t) && id < |t.opportunities| && k < |Swings(t, id)|
    ensures var h := Swings(t, id)[k];
            if t.history[h].kind.Lost? then i < |t.losses| && t.losses[i].history == h
            else i < |t.reopens| && t.reopens[i].history == h
  {
    SwingPlace(t, id, k);
    assert k == 2 * (k / 2) + k % 2;
    i := if k % 2 == 0 then LossesOf(t, id)[k / 2] else ReopensOf(t, id)[k / 2];
  }

  /** The loss a reopening names: the swing just before it, named by no other reopening. */
  predicate NamesItsLoss(t: Ledger, i: nat)
    requires i < |t.reopens|
  {
    var r := t.reopens[i];
    && r.loss < |t.losses| && t.losses[r.loss].opportunity == r.opportunity
    && t.losses[r.loss].history < r.history < |t.history|
    && (forall h | t.losses[r.loss].history < h < r.history :: !SwingOf(r.opportunity)(t.history[h]))
    && (forall j | 0 <= j < |t.reopens| && j != i :: t.reopens[j].loss != r.loss)
  }

  /**
   A reopening undoes the last loss before it: the loss is of the same opportunity, no other
   loss or reopening of that opportunity lies between the two, and no other reopening names it.
   */
  lemma ReopeningNamesItsLoss(l: Ledger, actions: seq<Action>, i: nat)
    requires Empty(l) && i < |Run(l, actions).reopens|
    ensures NamesItsLoss(Run(l, actions), i)
  {
    Reachable(l, actions);
    LossNamed(Run(l, actions), i);
  }

  lemma LossNamed(t: Ledger, i: nat)
    requires LedgerInv(t) && i < |t.reopens|
    ensures NamesItsLoss(t, i)
  {
    var r := t.reopens[i];
    var id := r.opportunity;
    var k := ReopenPlace(t, i);
    var swings := Swings(t, id);
    assert forall m | 0 <= m < |swings| :: swings[m] <= swings[2 * k] || swings[m] >= swings[2 * k + 1];
    forall h | t.losses[r.loss].history < h < r.history ensures !SwingOf(id)(t.history[h]) {
      if SwingOf(id)(t.history[h]) {
        WhereComplete(t.history, SwingOf(id), h);
      }
    }
    forall j | 0 <= j < |t.reopens| && j != i ensures t.reopens[j].loss != r.loss {
      var m := ReopenPlace(t, j);
    }
  }

  /** Every loss keeps a faithful snapshot: the quote in product order, summing to its total. */
  lemma LossSnapshotsAddUp(l: Ledger, actions: seq<Action>, i: nat)
    requires Empty(l) && i < |Run(l, actions).losses|
    ensures var e := Run(l, actions).losses[i];
            GoodSnapshots(e.products) && e.total == Total(e.products) && GoodDetail(e.reason, e.detail)
  {
    Reachable(l, actions);
    var t := Run(l, actions);
    var id := t.losses[i].opportunity;
    var k := LossPlace(t, i);
    assert OpportunityInv(t, id);
    assert LossMatches(t.losses[i], t.history[Swings(t, id)[2 * k]], t.opportunities[id]);
  }

  lemma StagesAgreeWithColumns(l: Ledger, actions: seq<Action>, id: OpportunityId)
    requires Empty(l) && id < |Run(l, actions).opportunities|
    ensures GoodQuote(Run(l, actions).opportunities[id]) && GoodReason(Run(l, actions).opportunities[id])
  {
    Reachable(l, actions);
    assert OpportunityInv(Run(l, actions), id);
  }

  lemma OneActiveWhatsAppPerCustomer(l: Ledger, actions: seq<Action>, i: nat, j: nat)
    requires Empty(l) && i < j < |Run(l, actions).opportunities|
    requires LiveWhatsApp(Run(l, actions).opportunities[i]) && LiveWhatsApp(Run(l, actions).opportunities[j])
    ensures Run(l, actions).opportunities[i].customer != Run(l, actions).opportunities[j].customer
  {
    Reachable(l, actions);
  }

  /** An open notice is the only one of its opportunity, which is open and was stale when it was raised. */
  lemma OpenNoticesAreHonest(l: Ledger, actions: seq<Action>)
    requires Empty(l)
    ensures NoticesHonest(Run(l, actions))
  {
    Reachable(l, actions);
  }

  /** While a notice stays open its opportunity makes no transition at all. */
  lemma OpenNoticeMeansUnmoved(l: Ledger, first: seq<Action>, rest: seq<Action>, n: nat)
    requires Empty(l) && n < |Run(l, first).notices|
    requires n < |Run(Run(l, first), rest).notices| && Run(Run(l, first), rest).notices[n].resolvedAt.None?
    ensures var before := Run(l, first);
            var after := Run(before, rest);
            && before.notices[n].resolvedAt.None?
            && Unmoved(before, after, after.notices[n].opportunity)
            && after.opportunities[after.notices[n].opportunity].deletedAt.None?
  {
    Reachable(l, first);
    RunKeeps(Run(l, first), rest);
  }

  /** A generation leaves no stale opportunity without an open notice. */
  lemma GenerationIsComplete(t: Ledger, now: Time, thresholdDays: int, id: OpportunityId)
    requires thresholdDays > 0 && id < |t.opportunities|
    requires Stale(t.opportunities[id], now - Days(thresholdDays))
    ensures HasNotice(Step(t, DoGenerate(now, thresholdDays)).notices, id)
  {
    NewNoticesComplete(t, now - Days(thresholdDays), now, |t.opportunities|, id);
  }

  /** Repeating a reopen command changes nothing, and another use of its id is refused. */
  lemma ReopenReplays(l: Ledger, actions: seq<Action>, id: OpportunityId, command: Uuid, user: UserId, at: Time,
                      later: Time, other: OpportunityId)
    requires Empty(l)
    requires !CommandUsed(Run(l, actions), command)
    requires ReopenOpportunity(Run(l, actions), id, command, Perdida, user, at).Success?
    ensures var after := ReopenOpportunity(Run(l, actions), id, command, Perdida, user, at).value;
            && ReopenOpportunity(after, id, command, Perdida, user, later) == Success(after)
            && (other != id
                ==> ReopenOpportunity(after, other, command, Perdida, user, later) == Failure(CommandReused))
  {
    var t := Run(l, actions);
    var after := ReopenOpportunity(t, id, command, Perdida, user, at).value;
    assert after.reopens[|t.reopens|].command == command;
    assert forall i | 0 <= i < |after.reopens| && after.reopens[i].command == command :: i == |t.reopens|;
  }

  // ---- Edits of one version ----

  /** An edit of a quote is refused as stale exactly when it expects a version that is not the current one. */
  lemma StaleEditIff(l: Ledger, id: OpportunityId, lines: seq<QuoteLine>, expected: Option<Time>, now: Time)
    requires id < |l.opportunities| && l.opportunities[id].deletedAt.None?
    ensures UpdateQuote(l, id, lines, expected, now) == Failure(StaleWrite)
            <==> expected.Some? && l.opportunities[id].updatedAt != expected.value
  {
    if UpdateQuote(l, id, lines, expected, now) == Failure(StaleWrite) {
      QuoteErrors(l, lines, l.opportunities[id].quote.Keys);
    }
  }

  lemma {:induction false} QuantityErrors(lines: seq<QuoteLine>)
    ensures Quantities(lines).Failure? ==> Quantities(lines).error == InvalidQuote
  {
    if lines != [] {
      QuantityErrors(lines[..|lines| - 1]);
    }
  }

  lemma QuoteErrors(l: Ledger, lines: seq<QuoteLine>, existing: set<ProductId>)
    ensures var quote := ValidatedQuote(l, lines, existing);
            quote.Failure? ==> quote.error in {InvalidQuote, NotFound, InactiveProduct}
  {
    QuantityErrors(lines);
  }

  /**
   Of two edits that expect the same version, the second is refused exactly when the clock has moved on
   from that version at the first; within one tick of the clock both would pass.
   */
  lemma SecondQuoteEditIff(l: Ledger, actions: seq<Action>, id: OpportunityId, version: Time,
                           lines: seq<QuoteLine>, now: Time, lines2: seq<QuoteLine>, now2: Time)
    requires Empty(l)
    requires UpdateQuote(Run(l, actions), id, lines, Some(version), now).Success?
    ensures var after := UpdateQuote(Run(l, actions), id, lines, Some(version), now).value;
            UpdateQuote(after, id, lines2, Some(version), now2) == Failure(StaleWrite) <==> now != version
  {
    var t := Run(l, actions);
    var after := UpdateQuote(t, id, lines, Some(version), now).value;
    StaleEditIff(after, id, lines2, Some(version), now2);
  }
}
