/**
 What every ledger operation keeps: histories are chains of permitted transitions, losses and
 reopenings alternate and are paired with their events, and stale notices are honest.
 */
module LedgerInvariant {
  import opened Wrappers
  import opened Tables
  import opened Trimming
  import opened OpportunityLedger

  // ---- The rows of one opportunity ----

  function EntryOf(id: OpportunityId): History -> bool {
    (h: History) => h.opportunity == id
  }

  /** The history rows that close or reopen an opportunity. */
  function SwingOf(id: OpportunityId): History -> bool {
    (h: History) => h.opportunity == id && (h.kind.Lost? || h.kind.Reopened?)
  }

  function LossOfOpportunity(id: OpportunityId): Loss -> bool {
    (e: Loss) => e.opportunity == id
  }

  function ReopenOfOpportunity(id: OpportunityId): Reopen -> bool {
    (r: Reopen) => r.opportunity == id
  }

  function Trail(l: Ledger, id: OpportunityId): seq<nat> {
    Where(l.history, EntryOf(id))
  }

  function Swings(l: Ledger, id: OpportunityId): seq<nat> {
    Where(l.history, SwingOf(id))
  }

  function LossesOf(l: Ledger, id: OpportunityId): seq<nat> {
    Where(l.losses, LossOfOpportunity(id))
  }

  function ReopensOf(l: Ledger, id: OpportunityId): seq<nat> {
    Where(l.reopens, ReopenOfOpportunity(id))
  }

  // ---- The invariant ----

  predicate Permitted(before: Status, to: Status, kind: Kind) {
    match kind
    case Created => false
    case StatusChanged =>
      || (before.Nueva? && to.Cotizada?)
      || (before.Cotizada? && to.Negociacion?)
      || (before.Negociacion? && (to.Ganada? || to.Cotizada?))
      || (before.Ganada? && to.Negociacion?)
    case Lost => Active(before) && to.Perdida?
    case Reopened => before.Perdida? && to.Negociacion?
  }

  predicate StartsAtNueva(h: History) {
    h.fromStatus.None? && h.toStatus.Nueva? && h.kind.Created?
  }

  predicate Follows(before: History, h: History) {
    h.fromStatus == Some(before.toStatus) && Permitted(before.toStatus, h.toStatus, h.kind)
  }

  /** History is a chain of permitted transitions from NUEVA to the current status and entry time. */
  predicate ChainInv(l: Ledger, id: OpportunityId)
    requires id < |l.opportunities|
  {
    var t := Trail(l, id);
    && t != []
    && StartsAtNueva(l.history[t[0]])
    && (forall k | 0 < k < |t| :: Follows(l.history[t[k - 1]], l.history[t[k]]))
    && l.history[t[|t| - 1]].toStatus == l.opportunities[id].status
    && l.history[t[|t| - 1]].at == l.opportunities[id].enteredAt
  }

  predicate GoodDetail(reason: LossReason, detail: Option<string>) {
    if reason.Otro? then detail.Some? && Trimmed(detail.value) && |detail.value| <= 500 else detail.None?
  }

  predicate GoodSnapshots(products: seq<Snapshot>) {
    && (forall k | 0 <= k < |products| :: products[k].quantity > 0)
    && (forall j, k | 0 <= j < k < |products| :: products[j].product < products[k].product)
  }

  /** A loss event and the history row it belongs to. */
  predicate LossMatches(e: Loss, h: History, o: Opportunity) {
    && h.kind.Lost? && h.at == e.at && h.actor == e.actor && h.fromStatus == Some(e.fromStatus)
    && e.customer == o.customer && e.source == o.source
    && GoodDetail(e.reason, e.detail)
    && GoodSnapshots(e.products) && e.total == Total(e.products)
  }

  predicate ReopenMatches(r: Reopen, h: History) {
    h.kind.Reopened? && h.at == r.at && h.actor == Some(r.actor)
  }

  /**
   Losses and reopenings alternate, starting with a loss: the swings of an opportunity are its
   losses at even places and its reopenings at odd ones, and each reopening names the loss just
   before it.
   */
  predicate SwingInv(l: Ledger, id: OpportunityId)
    requires id < |l.opportunities|
  {
    var swings := Swings(l, id);
    var losses := LossesOf(l, id);
    var reopens := ReopensOf(l, id);
    && |swings| == |losses| + |reopens|
    && |losses| == |reopens| + (if l.opportunities[id].status.Perdida? then 1 else 0)
    && (forall k | 0 <= k < |losses| ::
          l.losses[losses[k]].history == swings[2 * k]
          && LossMatches(l.losses[losses[k]], l.history[swings[2 * k]], l.opportunities[id]))
    && (forall k | 0 <= k < |reopens| ::
          l.reopens[reopens[k]].history == swings[2 * k + 1] && l.reopens[reopens[k]].loss == losses[k]
          && ReopenMatches(l.reopens[reopens[k]], l.history[swings[2 * k + 1]]))
  }

  predicate GoodQuote(o: Opportunity) {
    && (o.status.Cotizada? || o.status.Negociacion? || o.status.Ganada? ==> o.quote != map[])
    && (o.status.Nueva? ==> o.quote == map[])
    && (forall p | p in o.quote :: o.quote[p] > 0)
  }

  predicate GoodReason(o: Opportunity) {
    && (o.reason.Some? <==> o.status.Perdida?)
    && (if o.reason.Some? then GoodDetail(o.reason.value, o.detail) else o.detail.None?)
  }

  predicate OpportunityInv(l: Ledger, id: OpportunityId)
    requires id < |l.opportunities|
  {
    ChainInv(l, id) && SwingInv(l, id) && GoodQuote(l.opportunities[id]) && GoodReason(l.opportunities[id])
  }

  /** Events never name an opportunity that does not exist. */
  predicate EventsRefer(l: Ledger) {
    && (forall i | 0 <= i < |l.history| :: l.history[i].opportunity < |l.opportunities|)
    && (forall i | 0 <= i < |l.losses| :: l.losses[i].opportunity < |l.opportunities|)
    && (forall i | 0 <= i < |l.reopens| :: l.reopens[i].opportunity < |l.opportunities|)
  }

  predicate OneActiveWhatsApp(l: Ledger) {
    forall i, j | 0 <= i < j < |l.opportunities| && LiveWhatsApp(l.opportunities[i])
                  && LiveWhatsApp(l.opportunities[j]) ::
      l.opportunities[i].customer != l.opportunities[j].customer
  }

  predicate CommandsDistinct(l: Ledger) {
    forall i, j | 0 <= i < j < |l.reopens| :: l.reopens[i].command != l.reopens[j].command
  }

  /** An open notice is about an open opportunity that already was stale when it was raised. */
  predicate NoticesHonest(l: Ledger) {
    && (forall n | 0 <= n < |l.notices| && l.notices[n].resolvedAt.None? ::
          l.notices[n].opportunity < |l.opportunities|
          && Stale(l.opportunities[l.notices[n].opportunity], l.notices[n].createdAt - DAY))
    && (forall m, n | 0 <= m < n < |l.notices| && l.notices[m].resolvedAt.None? && l.notices[n].resolvedAt.None? ::
          l.notices[m].opportunity != l.notices[n].opportunity)
  }

  predicate TablesInv(l: Ledger) {
    EventsRefer(l) && OneActiveWhatsApp(l) && CommandsDistinct(l) && NoticesHonest(l)
  }

  predicate LedgerInv(l: Ledger) {
    TablesInv(l) && forall id | 0 <= id < |l.opportunities| :: OpportunityInv(l, id)
  }

  // ---- Two-state relation ----

  /** An open notice that stays open: its opportunity has not moved at all. */
  predicate Unmoved(l: Ledger, after: Ledger, id: OpportunityId) {
    && id < |l.opportunities| && id < |after.opportunities|
    && after.opportunities[id].status == l.opportunities[id].status
    && after.opportunities[id].enteredAt == l.opportunities[id].enteredAt
    && Trail(after, id) == Trail(l, id)
  }

  predicate Continues(l: Ledger, after: Ledger) {
    && l.history <= after.history
    && l.losses <= after.losses
    && l.reopens <= after.reopens
    && |l.opportunities| <= |after.opportunities|
    && |l.notices| <= |after.notices|
    && (forall id | 0 <= id < |l.opportunities| ::
          after.opportunities[id].customer == l.opportunities[id].customer
          && after.opportunities[id].source == l.opportunities[id].source
          && (l.opportunities[id].deletedAt.Some?
              ==> after.opportunities[id].deletedAt == l.opportunities[id].deletedAt))
    && (forall n | 0 <= n < |l.notices| ::
          after.notices[n].opportunity == l.notices[n].opportunity
          && (l.notices[n].resolvedAt.Some? ==> after.notices[n] == l.notices[n])
          && (after.notices[n].resolvedAt.None? ==> Unmoved(l, after, l.notices[n].opportunity)))
  }

  lemma ContinuesTransitive(a: Ledger, b: Ledger, c: Ledger)
    requires Continues(a, b) && Continues(b, c)
    ensures Continues(a, c)
  {
    forall n | 0 <= n < |a.notices| && c.notices[n].resolvedAt.None?
      ensures Unmoved(a, c, a.notices[n].opportunity)
    {
      assert Unmoved(b, c, b.notices[n].opportunity);
      assert Unmoved(a, b, a.notices[n].opportunity);
    }
  }

  // ---- Transitions ----

  /** The rows of an opportunity after one more history row. */
  lemma RowsAfter(l: Ledger, h: History, id: OpportunityId)
    ensures var history := l.history + [h];
            && Where(history, EntryOf(id))
               == (if h.opportunity == id then Trail(l, id) + [|l.history|] else Trail(l, id))
            && Where(history, SwingOf(id))
               == (if h.opportunity == id && (h.kind.Lost? || h.kind.Reopened?) then Swings(l, id) + [|l.history|]
                   else Swings(l, id))
  {
    WhereSnoc(l.history, h, EntryOf(id));
    WhereSnoc(l.history, h, SwingOf(id));
  }

  /** Opportunities that an operation does not touch keep their chain and their swings. */
  lemma UntouchedKeeps(l: Ledger, after: Ledger, id: OpportunityId)
    requires id < |l.opportunities| <= |after.opportunities| && OpportunityInv(l, id)
    requires after.opportunities[id] == l.opportunities[id]
    requires l.history <= after.history && l.losses <= after.losses && l.reopens <= after.reopens
    requires Trail(after, id) == Trail(l, id) && Swings(after, id) == Swings(l, id)
    requires LossesOf(after, id) == LossesOf(l, id) && ReopensOf(after, id) == ReopensOf(l, id)
    ensures OpportunityInv(after, id)
  {
    ChainCopied(l, after, id);
    SwingsCopied(l, after, id);
  }

  lemma ChainCopied(l: Ledger, after: Ledger, id: OpportunityId)
    requires id < |l.opportunities| <= |after.opportunities| && ChainInv(l, id)
    requires after.opportunities[id].status == l.opportunities[id].status
    requires after.opportunities[id].enteredAt == l.opportunities[id].enteredAt
    requires l.history <= after.history && Trail(after, id) == Trail(l, id)
    ensures ChainInv(after, id)
  {
    var t := Trail(l, id);
    assert forall k | 0 <= k < |t| :: after.history[t[k]] == l.history[t[k]];
  }

  lemma SwingsCopied(l: Ledger, after: Ledger, id: OpportunityId)
    requires id < |l.opportunities| <= |after.opportunities| && SwingInv(l, id)
    requires after.opportunities[id].status.Perdida? == l.opportunities[id].status.Perdida?
    requires after.opportunities[id].customer == l.opportunities[id].customer
    requires after.opportunities[id].source == l.opportunities[id].source
    requires l.history <= after.history && l.losses <= after.losses && l.reopens <= after.reopens
    requires Swings(after, id) == Swings(l, id)
    requires LossesOf(after, id) == LossesOf(l, id) && ReopensOf(after, id) == ReopensOf(l, id)
    ensures SwingInv(after, id)
  {
  }

  lemma ChainExtended(l: Ledger, after: Ledger, id: OpportunityId)
    requires id < |l.opportunities| == |after.opportunities| && ChainInv(l, id)
    requires |after.history| == |l.history| + 1 && l.history <= after.history
    requires Trail(after, id) == Trail(l, id) + [|l.history|]
    requires after.history[|l.history|].fromStatus == Some(l.opportunities[id].status)
    requires Permitted(l.opportunities[id].status, after.history[|l.history|].toStatus, after.history[|l.history|].kind)
    requires after.opportunities[id].status == after.history[|l.history|].toStatus
    requires after.opportunities[id].enteredAt == after.history[|l.history|].at
    ensures ChainInv(after, id)
  {
    var t := Trail(l, id);
    assert forall k | 0 <= k < |t| :: after.history[t[k]] == l.history[t[k]];
  }

  /** The table-wide parts of the invariant after any transition. */
  lemma TransitionRefers(l: Ledger, id: OpportunityId, to: Status, actor: Option<UserId>, at: Time, kind: Kind,
                         reason: Option<LossReason>, detail: Option<string>)
    requires TablesInv(l) && Available(l, id)
    requires Active(to) && !Active(l.opportunities[id].status) ==> !SecondActive(l, id)
    ensures var after := Transition(l, id, to, actor, at, kind, reason, detail);
            TablesInv(after) && Continues(l, after)
  {
    var after := Transition(l, id, to, actor, at, kind, reason, detail);
    forall i, j | 0 <= i < j < |l.opportunities| && LiveWhatsApp(after.opportunities[i])
                  && LiveWhatsApp(after.opportunities[j])
      ensures after.opportunities[i].customer != after.opportunities[j].customer
    {
      if i == id && !LiveWhatsApp(l.opportunities[i]) {
        assert LiveWhatsApp(l.opportunities[j]);
      } else if j == id && !LiveWhatsApp(l.opportunities[j]) {
        assert LiveWhatsApp(l.opportunities[i]);
      }
    }
    forall n | 0 <= n < |l.notices| && after.notices[n].resolvedAt.None?
      ensures l.notices[n].opportunity != id && Unmoved(l, after, l.notices[n].opportunity)
    {
      RowsAfter(l, after.history[|l.history|], l.notices[n].opportunity);
    }
  }

  // ---- Creating and quoting ----

  lemma CreateKeeps(l: Ledger, customer: CustomerId, source: Source, owner: Option<UserId>, actor: Option<UserId>,
                    at: Time)
    requires LedgerInv(l)
    ensures var after := Create(l, customer, source, owner, actor, at);
            after.Success? ==> LedgerInv(after.value) && Continues(l, after.value)
  {
    var created := Create(l, customer, source, owner, actor, at);
    if created.Success? {
      var o := Opportunity(customer, source, at, Nueva, None, None, at, at, None, map[]);
      CreatedChains(l, created.value, o, History(|l.opportunities|, None, Nueva, Created, at, actor));
      forall i | 0 <= i < |l.opportunities| && LiveWhatsApp(l.opportunities[i]) && source.WhatsApp?
        ensures l.opportunities[i].customer != customer
      {
      }
    }
  }

  lemma CreatedChains(l: Ledger, after: Ledger, o: Opportunity, h: History)
    requires LedgerInv(l)
    requires after == l.(opportunities := l.opportunities + [o], history := l.history + [h])
    requires h.opportunity == |l.opportunities| && StartsAtNueva(h)
    requires o.status.Nueva? && o.enteredAt == h.at && GoodQuote(o) && GoodReason(o)
    ensures forall i | 0 <= i < |after.opportunities| :: OpportunityInv(after, i)
    ensures forall i | 0 <= i < |l.opportunities| :: Trail(after, i) == Trail(l, i)
  {
    forall i | 0 <= i < |after.opportunities|
      ensures OpportunityInv(after, i) && (i < |l.opportunities| ==> Trail(after, i) == Trail(l, i))
    {
      if i < |l.opportunities| {
        CreatedLeaves(l, after, o, h, i);
      } else {
        RowsAfter(l, h, i);
        NothingBefore(l, i);
      }
    }
  }

  lemma CreatedLeaves(l: Ledger, after: Ledger, o: Opportunity, h: History, i: OpportunityId)
    requires LedgerInv(l) && i < |l.opportunities|
    requires after == l.(opportunities := l.opportunities + [o], history := l.history + [h])
    requires h.opportunity == |l.opportunities|
    ensures OpportunityInv(after, i) && Trail(after, i) == Trail(l, i)
  {
    RowsAfter(l, h, i);
    assert OpportunityInv(l, i);
    UntouchedKeeps(l, after, i);
  }

  lemma NothingBefore(l: Ledger, id: OpportunityId)
    requires EventsRefer(l) && id >= |l.opportunities|
    ensures Trail(l, id) == [] && Swings(l, id) == [] && LossesOf(l, id) == [] && ReopensOf(l, id) == []
  {
    WhereNone(l.history, EntryOf(id));
    WhereNone(l.history, SwingOf(id));
    WhereNone(l.losses, LossOfOpportunity(id));
    WhereNone(l.reopens, ReopenOfOpportunity(id));
  }

  lemma {:induction false} QuantitiesArePositive(lines: seq<QuoteLine>)
    ensures Quantities(lines).Success? ==>
              && (forall p | p in Quantities(lines).value :: Quantities(lines).value[p] > 0)
              && (lines != [] ==> Quantities(lines).value != map[])
  {
    if lines != [] {
      QuantitiesArePositive(lines[..|lines| - 1]);
      if Quantities(lines).Success? {
        assert lines[|lines| - 1].product in Quantities(lines).value;
      }
    }
  }

  lemma WithQuoteKeeps(l: Ledger, id: OpportunityId, quote: Quote)
    requires LedgerInv(l) && id < |l.opportunities|
    ensures var after := WithQuote(l, id, quote);
            TablesInv(after) && Continues(l, after)
            && forall i | 0 <= i < |after.opportunities| ::
                 && ChainInv(after, i) && SwingInv(after, i) && GoodReason(after.opportunities[i])
                 && (i != id ==> GoodQuote(after.opportunities[i]))
  {
    var after := WithQuote(l, id, quote);
    forall i | 0 <= i < |after.opportunities|
      ensures ChainInv(after, i) && SwingInv(after, i) && GoodReason(after.opportunities[i])
              && (i != id ==> GoodQuote(after.opportunities[i]))
    {
      assert OpportunityInv(l, i);
      ChainCopied(l, after, i);
      SwingsCopied(l, after, i);
    }
    QuoteMovesNothing(l, after);
  }

  lemma QuoteMovesNothing(l: Ledger, after: Ledger)
    requires TablesInv(l) && |after.opportunities| == |l.opportunities|
             && after == l.(opportunities := after.opportunities)
    requires forall i | 0 <= i < |l.opportunities| ::
               after.opportunities[i] == l.opportunities[i].(quote := after.opportunities[i].quote,
                                                             updatedAt := after.opportunities[i].updatedAt)
    ensures TablesInv(after) && Continues(l, after)
  {
    forall n | 0 <= n < |l.notices| && l.notices[n].resolvedAt.None?
      ensures Unmoved(l, after, l.notices[n].opportunity)
    {
    }
  }

  lemma QuoteKeeps(l: Ledger, id: OpportunityId, lines: seq<QuoteLine>, actor: Option<UserId>, at: Time)
    requires LedgerInv(l)
    ensures var after := QuoteOpportunity(l, id, lines, actor, at);
            after.Success? ==> LedgerInv(after.value) && Continues(l, after.value)
  {
    var quoted := QuoteOpportunity(l, id, lines, actor, at);
    if quoted.Success? {
      QuantitiesArePositive(lines);
      var quote := ValidatedQuote(l, lines, {}).value;
      var priced := WithQuote(l, id, quote);
      WithQuoteKeeps(l, id, quote);
      TransitionRefers(priced, id, Cotizada, actor, at, StatusChanged, None, None);
      ContinuesTransitive(l, priced, quoted.value);
      MovedChains(priced, id, Cotizada, actor, at);
    }
  }

  /** The per-opportunity part of a plain move. */
  lemma MovedChains(l: Ledger, id: OpportunityId, to: Status, actor: Option<UserId>, at: Time)
    requires id < |l.opportunities| && Permitted(l.opportunities[id].status, to, StatusChanged)
    requires forall i | 0 <= i < |l.opportunities| ::
               && ChainInv(l, i) && SwingInv(l, i) && GoodReason(l.opportunities[i])
               && (i != id ==> GoodQuote(l.opportunities[i]))
    requires l.opportunities[id].quote != map[]
    requires forall p | p in l.opportunities[id].quote :: l.opportunities[id].quote[p] > 0
    ensures forall i | 0 <= i < |l.opportunities| :: OpportunityInv(Moved(l, id, to, actor, at), i)
  {
    forall i | 0 <= i < |l.opportunities|
      ensures OpportunityInv(Moved(l, id, to, actor, at), i)
    {
      MovedChain(l, id, to, actor, at, i);
    }
  }

  lemma MovedChain(l: Ledger, id: OpportunityId, to: Status, actor: Option<UserId>, at: Time, i: OpportunityId)
    requires id < |l.opportunities| && i < |l.opportunities| && Permitted(l.opportunities[id].status, to, StatusChanged)
    requires ChainInv(l, i) && SwingInv(l, i) && GoodReason(l.opportunities[i])
    requires i != id ==> GoodQuote(l.opportunities[i])
    requires l.opportunities[id].quote != map[]
    requires forall p | p in l.opportunities[id].quote :: l.opportunities[id].quote[p] > 0
    ensures OpportunityInv(Moved(l, id, to, actor, at), i)
  {
    var after := Moved(l, id, to, actor, at);
    RowsAfter(l, after.history[|l.history|], i);
    if i == id {
      ChainExtended(l, after, id);
    } else {
      ChainCopied(l, after, i);
    }
    SwingsCopied(l, after, i);
  }

  lemma MovedKeeps(l: Ledger, id: OpportunityId, to: Status, actor: Option<UserId>, at: Time)
    requires LedgerInv(l) && Available(l, id)
    requires Permitted(l.opportunities[id].status, to, StatusChanged)
    requires l.opportunities[id].quote != map[]
    requires Active(to) && !Active(l.opportunities[id].status) ==> !SecondActive(l, id)
    ensures LedgerInv(Moved(l, id, to, actor, at)) && Continues(l, Moved(l, id, to, actor, at))
  {
    forall i | 0 <= i < |l.opportunities|
      ensures ChainInv(l, i) && SwingInv(l, i) && GoodReason(l.opportunities[i]) && GoodQuote(l.opportunities[i])
    {
      assert OpportunityInv(l, i);
    }
    TransitionRefers(l, id, to, actor, at, StatusChanged, None, None);
    MovedChains(l, id, to, actor, at);
  }

  lemma AdvanceKeeps(l: Ledger, id: OpportunityId, expected: Status, target: Status, actor: Option<UserId>, at: Time)
    requires LedgerInv(l) && Permitted(expected, target, StatusChanged)
    ensures var after := Advance(l, id, expected, target, actor, at);
            after.Success? ==> LedgerInv(after.value) && Continues(l, after.value)
  {
    if Advance(l, id, expected, target, actor, at).Success? {
      MovedKeeps(l, id, target, actor, at);
    }
  }

  lemma RegressKeeps(l: Ledger, id: OpportunityId, expected: Status, target: Status, actor: UserId, at: Time)
    requires LedgerInv(l)
    ensures var after := Regress(l, id, expected, target, actor, at);
            after.Success? ==> LedgerInv(after.value) && Continues(l, after.value)
  {
    if Regress(l, id, expected, target, actor, at).Success? {
      MovedKeeps(l, id, target, Some(actor), at);
    }
  }

  lemma UpdateQuoteKeeps(l: Ledger, id: OpportunityId, lines: seq<QuoteLine>, expectedUpdatedAt: Option<Time>,
                         now: Time)
    requires LedgerInv(l)
    ensures var after := UpdateQuote(l, id, lines, expectedUpdatedAt, now);
            after.Success? ==> LedgerInv(after.value) && Continues(l, after.value)
  {
    var updated := UpdateQuote(l, id, lines, expectedUpdatedAt, now);
    if updated.Success? {
      QuantitiesArePositive(lines);
      var after := updated.value;
      forall i | 0 <= i < |after.opportunities|
        ensures OpportunityInv(after, i)
      {
        assert OpportunityInv(l, i);
        ChainCopied(l, after, i);
        SwingsCopied(l, after, i);
      }
      forall n | 0 <= n < |l.notices| && l.notices[n].resolvedAt.None?
        ensures Unmoved(l, after, l.notices[n].opportunity)
      {
      }
    }
  }

  // ---- Losing ----

  lemma {:induction false} SnapshotsOrdered(quote: Quote, products: map<ProductId, Product>)
    requires quote.Keys <= products.Keys
    ensures var rows := Snapshots(quote, products);
            && |rows| == |quote|
            && (forall k | 0 <= k < |rows| ::
                  rows[k].product in quote && rows[k].quantity == quote[rows[k].product]
                  && rows[k].name == products[rows[k].product].name)
            && (forall j, k | 0 <= j < k < |rows| :: rows[j].product < rows[k].product)
    decreases |quote|
  {
    if quote != map[] {
      var p := Smallest(quote.Keys);
      var rest := quote - {p};
      assert rest.Keys == quote.Keys - {p};
      SnapshotsOrdered(rest, products);
      assert forall q | q in rest :: p < q;
    }
  }

  lemma StripTrims(s: string)
    ensures Strip(s) == "" || Trimmed(Strip(s))
  {
  }

  lemma LoseKeeps(l: Ledger, id: OpportunityId, reason: Option<LossReason>, detail: Option<string>,
                  actor: Option<UserId>, at: Time)
    requires LedgerInv(l)
    ensures var after := Lose(l, id, reason, detail, actor, at);
            after.Success? ==> LedgerInv(after.value) && Continues(l, after.value)
  {
    if Lose(l, id, reason, detail, actor, at).Success? {
      if reason.value.Otro? {
        StripTrims(detail.value);
      }
      LosingKeeps(l, id, reason.value, NormalizedDetail(reason.value, detail).value, actor, at);
    }
  }

  lemma LosingKeeps(l: Ledger, id: OpportunityId, reason: LossReason, text: Option<string>, actor: Option<UserId>,
                    at: Time)
    requires LedgerInv(l) && Available(l, id) && Active(l.opportunities[id].status) && GoodDetail(reason, text)
    requires l.opportunities[id].customer in l.customers && l.opportunities[id].quote.Keys <= l.products.Keys
    ensures var after := Losing(l, id, reason, text, actor, at);
            LedgerInv(after) && Continues(l, after)
  {
    var after := Losing(l, id, reason, text, actor, at);
    TransitionRefers(l, id, Perdida, actor, at, Lost, Some(reason), text);
    assert OpportunityInv(l, id);
    LossSwings(l, id, reason, text, actor, at);
    forall i | 0 <= i < |l.opportunities|
      ensures OpportunityInv(after, i)
    {
      assert OpportunityInv(l, i);
      LossInv(l, after, id, i);
    }
    LossContinues(l, Transition(l, id, Perdida, actor, at, Lost, Some(reason), text), after);
  }

  lemma LossContinues(l: Ledger, moved: Ledger, after: Ledger)
    requires Continues(l, moved) && moved.losses == l.losses
    requires l.losses <= after.losses && after == moved.(losses := after.losses)
    ensures Continues(l, after)
  {
    forall n | 0 <= n < |l.notices| && after.notices[n].resolvedAt.None?
      ensures Unmoved(l, after, l.notices[n].opportunity)
    {
      assert Unmoved(l, moved, l.notices[n].opportunity);
    }
  }

  function Losing(l: Ledger, id: OpportunityId, reason: LossReason, text: Option<string>, actor: Option<UserId>,
                  at: Time): Ledger
    requires id < |l.opportunities| && l.opportunities[id].customer in l.customers
    requires l.opportunities[id].quote.Keys <= l.products.Keys
  {
    Transition(l, id, Perdida, actor, at, Lost, Some(reason), text)
      .(losses := l.losses + [LossOf(l, id, reason, text, actor, at)])
  }

  lemma LossSwings(l: Ledger, id: OpportunityId, reason: LossReason, text: Option<string>, actor: Option<UserId>,
                   at: Time)
    requires id < |l.opportunities| && Active(l.opportunities[id].status) && GoodDetail(reason, text)
    requires l.opportunities[id].customer in l.customers && l.opportunities[id].quote.Keys <= l.products.Keys
    requires OpportunityInv(l, id)
    ensures var after := Losing(l, id, reason, text, actor, at);
            && Swung(l, after, id)
            && LossMatches(after.losses[|l.losses|], after.history[|l.history|], after.opportunities[id])
  {
    SnapshotsOrdered(l.opportunities[id].quote, l.products);
  }

  /** A transition of `id` that adds a history row for a loss or a reopening. */
  predicate Swung(l: Ledger, after: Ledger, id: OpportunityId) {
    && id < |l.opportunities| == |after.opportunities|
    && |after.history| == |l.history| + 1 && l.history <= after.history
    && after.opportunities == l.opportunities[id := after.opportunities[id]]
    && after.opportunities[id].customer == l.opportunities[id].customer
    && after.opportunities[id].source == l.opportunities[id].source
    && GoodQuote(after.opportunities[id]) && GoodReason(after.opportunities[id])
    && var h := after.history[|l.history|];
    && h.opportunity == id && (h.kind.Lost? || h.kind.Reopened?)
    && h.fromStatus == Some(l.opportunities[id].status) && Permitted(l.opportunities[id].status, h.toStatus, h.kind)
    && after.opportunities[id].status == h.toStatus && after.opportunities[id].enteredAt == h.at
  }

  predicate LossAdded(l: Ledger, after: Ledger, id: OpportunityId) {
    && Swung(l, after, id)
    && |after.losses| == |l.losses| + 1 && l.losses <= after.losses && after.reopens == l.reopens
    && after.losses[|l.losses|].opportunity == id && after.losses[|l.losses|].history == |l.history|
    && LossMatches(after.losses[|l.losses|], after.history[|l.history|], after.opportunities[id])
  }

  predicate ReopenAdded(l: Ledger, after: Ledger, id: OpportunityId) {
    && Swung(l, after, id)
    && |after.reopens| == |l.reopens| + 1 && l.reopens <= after.reopens && after.losses == l.losses
    && after.reopens[|l.reopens|].opportunity == id && after.reopens[|l.reopens|].history == |l.history|
    && LatestLoss(l.losses, id) == Some(after.reopens[|l.reopens|].loss)
    && ReopenMatches(after.reopens[|l.reopens|], after.history[|l.history|])
  }

  /** The rows of each opportunity after the new history row. */
  lemma SwungRows(l: Ledger, after: Ledger, id: OpportunityId, i: OpportunityId)
    requires Swung(l, after, id)
    ensures Trail(after, i) == (if i == id then Trail(l, i) + [|l.history|] else Trail(l, i))
    ensures Swings(after, i) == (if i == id then Swings(l, i) + [|l.history|] else Swings(l, i))
  {
    assert after.history == l.history + [after.history[|l.history|]];
    RowsAfter(l, after.history[|l.history|], i);
  }

  lemma LossRows(l: Ledger, after: Ledger, id: OpportunityId, i: OpportunityId)
    requires LossAdded(l, after, id)
    ensures LossesOf(after, i) == (if i == id then LossesOf(l, i) + [|l.losses|] else LossesOf(l, i))
  {
    assert after.losses == l.losses + [after.losses[|l.losses|]];
    WhereSnoc(l.losses, after.losses[|l.losses|], LossOfOpportunity(i));
  }

  lemma ReopenRows(l: Ledger, after: Ledger, id: OpportunityId, i: OpportunityId)
    requires ReopenAdded(l, after, id)
    ensures ReopensOf(after, i) == (if i == id then ReopensOf(l, i) + [|l.reopens|] else ReopensOf(l, i))
  {
    assert after.reopens == l.reopens + [after.reopens[|l.reopens|]];
    WhereSnoc(l.reopens, after.reopens[|l.reopens|], ReopenOfOpportunity(i));
  }

  lemma LossInv(l: Ledger, after: Ledger, id: OpportunityId, i: OpportunityId)
    requires LossAdded(l, after, id) && i < |l.opportunities| && OpportunityInv(l, i)
    ensures OpportunityInv(after, i)
  {
    SwungRows(l, after, id, i);
    LossRows(l, after, id, i);
    if i == id {
      LossInvOfId(l, after, id);
    } else {
      UntouchedKeeps(l, after, i);
    }
  }

  lemma LossInvOfId(l: Ledger, after: Ledger, id: OpportunityId)
    requires LossAdded(l, after, id) && OpportunityInv(l, id)
    requires Trail(after, id) == Trail(l, id) + [|l.history|] && Swings(after, id) == Swings(l, id) + [|l.history|]
    requires LossesOf(after, id) == LossesOf(l, id) + [|l.losses|]
    ensures OpportunityInv(after, id)
  {
    ChainExtended(l, after, id);
    LossPaired(l, after, id);
  }

  lemma ReopenInv(l: Ledger, after: Ledger, id: OpportunityId, i: OpportunityId)
    requires ReopenAdded(l, after, id) && i < |l.opportunities| && OpportunityInv(l, i)
    ensures OpportunityInv(after, i)
  {
    SwungRows(l, after, id, i);
    ReopenRows(l, after, id, i);
    if i == id {
      ReopenInvOfId(l, after, id);
    } else {
      UntouchedKeeps(l, after, i);
    }
  }

  lemma ReopenInvOfId(l: Ledger, after: Ledger, id: OpportunityId)
    requires ReopenAdded(l, after, id) && OpportunityInv(l, id)
    requires Trail(after, id) == Trail(l, id) + [|l.history|] && Swings(after, id) == Swings(l, id) + [|l.history|]
    requires ReopensOf(after, id) == ReopensOf(l, id) + [|l.reopens|]
    ensures OpportunityInv(after, id)
  {
    LatestIsLast(l.losses, id);
    ChainExtended(l, after, id);
    ReopenPaired(l, after, id);
  }

  /** One more loss at the end of the swings. */
  lemma LossPaired(l: Ledger, after: Ledger, id: OpportunityId)
    requires id < |l.opportunities| == |after.opportunities| && SwingInv(l, id)
    requires !l.opportunities[id].status.Perdida? && after.opportunities[id].status.Perdida?
    requires after.opportunities[id].customer == l.opportunities[id].customer
    requires after.opportunities[id].source == l.opportunities[id].source
    requires l.history <= after.history && l.losses <= after.losses && after.reopens == l.reopens
    requires |after.history| == |l.history| + 1 && |after.losses| == |l.losses| + 1
    requires Swings(after, id) == Swings(l, id) + [|l.history|]
    requires LossesOf(after, id) == LossesOf(l, id) + [|l.losses|]
    requires after.losses[|l.losses|].history == |l.history|
    requires LossMatches(after.losses[|l.losses|], after.history[|l.history|], after.opportunities[id])
    ensures SwingInv(after, id)
  {
    var swings := Swings(l, id);
    var losses := LossesOf(l, id);
    assert |swings| == 2 * |losses|;
  }

  // ---- Reopening ----

  lemma {:induction false} LatestIsLast(losses: seq<Loss>, id: OpportunityId)
    ensures var ids := Where(losses, LossOfOpportunity(id));
            LatestLoss(losses, id) == if ids == [] then None else Some(ids[|ids| - 1])
  {
    if losses != [] {
      LatestIsLast(losses[..|losses| - 1], id);
    }
  }

  lemma ReopenKeeps(l: Ledger, id: OpportunityId, command: Uuid, expected: Status, actor: UserId, at: Time)
    requires LedgerInv(l)
    ensures var after := ReopenOpportunity(l, id, command, expected, actor, at);
            after.Success? ==> LedgerInv(after.value) && Continues(l, after.value)
  {
    if CommandUsed(l, command) {
      Unchanged(l);
    } else if ReopenOpportunity(l, id, command, expected, actor, at).Success? {
      ReopeningKeeps(l, id, LatestLoss(l.losses, id).value, command, actor, at);
    }
  }

  lemma ReopeningKeeps(l: Ledger, id: OpportunityId, loss: nat, command: Uuid, actor: UserId, at: Time)
    requires LedgerInv(l) && Available(l, id) && l.opportunities[id].status.Perdida?
    requires l.opportunities[id].quote != map[] && !SecondActive(l, id) && !CommandUsed(l, command)
    requires LatestLoss(l.losses, id) == Some(loss)
    ensures var after := ReopenAt(l, id, loss, command, actor, at);
            LedgerInv(after) && Continues(l, after)
  {
    var moved := Transition(l, id, Negociacion, Some(actor), at, Reopened, None, None);
    var after := ReopenAt(l, id, loss, command, actor, at);
    TransitionRefers(l, id, Negociacion, Some(actor), at, Reopened, None, None);
    ReopenedRows(l, id, loss, command, actor, at);
    ReopenContinues(l, moved, after);
  }

  lemma ReopenedRows(l: Ledger, id: OpportunityId, loss: nat, command: Uuid, actor: UserId, at: Time)
    requires LedgerInv(l) && Available(l, id) && l.opportunities[id].status.Perdida?
    requires l.opportunities[id].quote != map[] && LatestLoss(l.losses, id) == Some(loss)
    ensures var after := ReopenAt(l, id, loss, command, actor, at);
            |after.opportunities| == |l.opportunities|
            && forall i | 0 <= i < |l.opportunities| :: OpportunityInv(after, i)
  {
    var after := ReopenAt(l, id, loss, command, actor, at);
    assert OpportunityInv(l, id);
    forall i | 0 <= i < |l.opportunities| ensures OpportunityInv(after, i) {
      assert OpportunityInv(l, i);
      ReopenInv(l, after, id, i);
    }
  }

  lemma ReopenContinues(l: Ledger, moved: Ledger, after: Ledger)
    requires Continues(l, moved) && moved.reopens == l.reopens
    requires l.reopens <= after.reopens && after == moved.(reopens := after.reopens)
    ensures Continues(l, after)
  {
    forall n | 0 <= n < |l.notices| && after.notices[n].resolvedAt.None?
      ensures Unmoved(l, after, l.notices[n].opportunity)
    {
      assert Unmoved(l, moved, l.notices[n].opportunity);
    }
  }

  lemma Unchanged(l: Ledger)
    ensures LedgerInv(l) ==> Continues(l, l)
  {
  }

  /** One more reopening at the end of the swings. */
  lemma ReopenPaired(l: Ledger, after: Ledger, id: OpportunityId)
    requires id < |l.opportunities| == |after.opportunities| && SwingInv(l, id)
    requires l.opportunities[id].status.Perdida? && !after.opportunities[id].status.Perdida?
    requires after.opportunities[id].customer == l.opportunities[id].customer
    requires after.opportunities[id].source == l.opportunities[id].source
    requires l.history <= after.history && after.losses == l.losses && l.reopens <= after.reopens
    requires |after.history| == |l.history| + 1 && |after.reopens| == |l.reopens| + 1
    requires Swings(after, id) == Swings(l, id) + [|l.history|]
    requires ReopensOf(after, id) == ReopensOf(l, id) + [|l.reopens|]
    requires LossesOf(l, id) != []
    requires after.reopens[|l.reopens|].history == |l.history|
    requires after.reopens[|l.reopens|].loss == LossesOf(l, id)[|LossesOf(l, id)| - 1]
    requires ReopenMatches(after.reopens[|l.reopens|], after.history[|l.history|])
    ensures SwingInv(after, id)
  {
    var swings := Swings(l, id);
    var reopens := ReopensOf(l, id);
    assert |swings| == 2 * |reopens| + 1;
  }

  // ---- Deleting ----

  lemma SoftDeleteKeeps(l: Ledger, id: OpportunityId, now: Time)
    requires LedgerInv(l)
    ensures var after := SoftDelete(l, id, now);
            after.Success? ==> LedgerInv(after.value) && Continues(l, after.value)
  {
    var deleted := SoftDelete(l, id, now);
    if deleted.Success? {
      var after := deleted.value;
      forall i | 0 <= i < |after.opportunities|
        ensures OpportunityInv(after, i)
      {
        assert OpportunityInv(l, i);
        ChainCopied(l, after, i);
        SwingsCopied(l, after, i);
      }
      forall n | 0 <= n < |l.notices| && after.notices[n].resolvedAt.None?
        ensures Unmoved(l, after, l.notices[n].opportunity)
      {
      }
    }
  }

  // ---- Notices ----

  predicate FreshNotice(l: Ledger, before: Time, now: Time, n: Notice, upTo: nat) {
    && n.opportunity < upTo <= |l.opportunities| && Stale(l.opportunities[n.opportunity], before)
    && !HasNotice(l.notices, n.opportunity) && n.createdAt == now && n.resolvedAt.None?
  }

  predicate FreshNotices(l: Ledger, before: Time, now: Time, added: seq<Notice>, upTo: nat) {
    && (forall n | 0 <= n < |added| :: FreshNotice(l, before, now, added[n], upTo))
    && (forall m, n | 0 <= m < n < |added| :: added[m].opportunity < added[n].opportunity)
  }

  lemma {:induction false} NewNoticesFresh(l: Ledger, before: Time, now: Time, upTo: nat)
    requires upTo <= |l.opportunities|
    ensures FreshNotices(l, before, now, NewNotices(l, before, now, upTo), upTo)
  {
    if upTo > 0 {
      NewNoticesFresh(l, before, now, upTo - 1);
      var earlier := NewNotices(l, before, now, upTo - 1);
      assert forall n | 0 <= n < |earlier| :: FreshNotice(l, before, now, earlier[n], upTo - 1);
    }
  }

  /** Every stale opportunity has an open notice once the generation is done. */
  lemma {:induction false} NewNoticesComplete(l: Ledger, before: Time, now: Time, upTo: nat, i: OpportunityId)
    requires i < upTo <= |l.opportunities| && Stale(l.opportunities[i], before)
    ensures HasNotice(l.notices + NewNotices(l, before, now, upTo), i)
  {
    var notices := l.notices + NewNotices(l, before, now, upTo);
    if HasNotice(l.notices, i) {
      var n :| 0 <= n < |l.notices| && l.notices[n].opportunity == i && l.notices[n].resolvedAt.None?;
      assert notices[n] == l.notices[n];
    } else if i == upTo - 1 {
      assert notices[|notices| - 1] == Notice(i, now, None);
    } else {
      NewNoticesComplete(l, before, now, upTo - 1, i);
      var fewer := l.notices + NewNotices(l, before, now, upTo - 1);
      var n :| 0 <= n < |fewer| && fewer[n].opportunity == i && fewer[n].resolvedAt.None?;
      assert notices[n] == fewer[n];
    }
  }

  lemma GenerateKeeps(l: Ledger, now: Time, thresholdDays: int)
    requires LedgerInv(l)
    ensures var after := GenerateNotices(l, now, thresholdDays);
            after.Success? ==> LedgerInv(after.value) && Continues(l, after.value)
  {
    if thresholdDays > 0 {
      var after := GenerateNotices(l, now, thresholdDays).value;
      NewNoticesHonest(l, after, now - Days(thresholdDays), now);
      forall i | 0 <= i < |after.opportunities|
        ensures OpportunityInv(after, i)
      {
        assert OpportunityInv(l, i);
        UntouchedKeeps(l, after, i);
      }
    }
  }

  lemma NewNoticesHonest(l: Ledger, after: Ledger, before: Time, now: Time)
    requires NoticesHonest(l) && before <= now - DAY
    requires after == l.(notices := l.notices + NewNotices(l, before, now, |l.opportunities|))
    ensures NoticesHonest(after)
  {
    var added := NewNotices(l, before, now, |l.opportunities|);
    NewNoticesFresh(l, before, now, |l.opportunities|);
    forall m, n | 0 <= m < n < |after.notices| && after.notices[m].resolvedAt.None? && after.notices[n].resolvedAt.None?
      ensures after.notices[m].opportunity != after.notices[n].opportunity
    {
      if m < |l.notices| <= n {
        assert FreshNotice(l, before, now, added[n - |l.notices|], |l.opportunities|);
      } else if n >= |l.notices| {
        assert after.notices[m] == added[m - |l.notices|] && after.notices[n] == added[n - |l.notices|];
      }
    }
    forall n | 0 <= n < |after.notices| && after.notices[n].resolvedAt.None?
      ensures after.notices[n].opportunity < |l.opportunities|
      ensures Stale(l.opportunities[after.notices[n].opportunity], after.notices[n].createdAt - DAY)
    {
      if n >= |l.notices| {
        assert FreshNotice(l, before, now, added[n - |l.notices|], |l.opportunities|);
      }
    }
  }

  // ---- Every step ----

  lemma WorldKeeps(l: Ledger, after: Ledger)
    requires LedgerInv(l)
    requires after == l.(customers := after.customers, products := after.products, users := after.users)
    ensures LedgerInv(after) && Continues(l, after)
  {
    forall i | 0 <= i < |after.opportunities|
      ensures OpportunityInv(after, i)
    {
      assert OpportunityInv(l, i);
      UntouchedKeeps(l, after, i);
    }
  }

  lemma StepKeeps(l: Ledger, a: Action)
    requires LedgerInv(l)
    ensures LedgerInv(Step(l, a)) && Continues(l, Step(l, a))
  {
    Unchanged(l);
    match a
    case DoCreate(customer, source, owner, actor, at) => CreateKeeps(l, customer, source, owner, actor, at);
    case DoQuote(id, lines, actor, at) => QuoteKeeps(l, id, lines, actor, at);
    case DoNegotiate(id, actor, at) => AdvanceKeeps(l, id, Cotizada, Negociacion, actor, at);
    case DoWin(id, actor, at) => AdvanceKeeps(l, id, Negociacion, Ganada, actor, at);
    case DoRegress(id, expected, target, user, at) => RegressKeeps(l, id, expected, target, user, at);
    case DoLose(id, reason, detail, actor, at) => LoseKeeps(l, id, reason, detail, actor, at);
    case DoUpdateQuote(id, lines, expectedUpdatedAt, at) => UpdateQuoteKeeps(l, id, lines, expectedUpdatedAt, at);
    case DoDelete(id, at) => SoftDeleteKeeps(l, id, at);
    case DoReopen(id, command, expected, user, at) => ReopenKeeps(l, id, command, expected, user, at);
    case DoGenerate(at, thresholdDays) => GenerateKeeps(l, at, thresholdDays);
    case CustomerChanged(_, _) => WorldKeeps(l, Step(l, a));
    case ProductChanged(_, _) => WorldKeeps(l, Step(l, a));
    case UsersChanged(_) => WorldKeeps(l, Step(l, a));
  }

  lemma {:induction false} RunKeeps(l: Ledger, actions: seq<Action>)
    requires LedgerInv(l)
    ensures LedgerInv(Run(l, actions)) && Continues(l, Run(l, actions))
  {
    if actions == [] {
      Unchanged(l);
    } else {
      var before := actions[..|actions| - 1];
      RunKeeps(l, before);
      StepKeeps(Run(l, before), actions[|actions| - 1]);
      ContinuesTransitive(l, Run(l, before), Run(l, actions));
    }
  }
}
