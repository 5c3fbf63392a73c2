/**
 What each ledger operation does, over the columns: when it goes through, which error it answers with
 otherwise, and the rows it leaves.
 */
module LedgerRules {
  import opened Wrappers
  import opened Trimming
  import opened OpportunityLedger
  import opened LedgerInvariant

  // ---- Quotes ----

  /** At least one line, every quantity positive, no product twice. */
  predicate ProperLines(lines: seq<QuoteLine>) {
    && lines != []
    && (forall n | 0 <= n < |lines| :: lines[n].quantity > 0)
    && (forall m, n | 0 <= m < n < |lines| :: lines[m].product != lines[n].product)
  }

  predicate KnownProducts(l: Ledger, lines: seq<QuoteLine>) {
    forall n | 0 <= n < |lines| :: lines[n].product in l.products
  }

  predicate MayBeQuoted(l: Ledger, lines: seq<QuoteLine>, existing: set<ProductId>) {
    forall n | 0 <= n < |lines| ::
      lines[n].product in existing || (lines[n].product in l.products && l.products[lines[n].product].active)
  }

  /** The quote holds the quantity of each line and nothing else. */
  predicate IsQuoteOf(quote: Quote, lines: seq<QuoteLine>) {
    && (forall n | 0 <= n < |lines| :: lines[n].product in quote && quote[lines[n].product] == lines[n].quantity)
    && (forall p | p in quote :: exists n | 0 <= n < |lines| :: lines[n].product == p)
  }

  lemma {:induction false} QuantitiesIff(lines: seq<QuoteLine>)
    ensures Quantities(lines).Success? <==> lines == [] || ProperLines(lines)
    ensures Quantities(lines).Success? ==> IsQuoteOf(Quantities(lines).value, lines)
    ensures Quantities(lines).Failure? ==> Quantities(lines).error == InvalidQuote
  {
    if lines != [] {
      var before := lines[..|lines| - 1];
      QuantitiesIff(before);
      ProperNext(lines);
      if Quantities(before).Success? {
        NextLine(lines, Quantities(before).value);
      }
    }
  }

  lemma ProperNext(lines: seq<QuoteLine>)
    requires lines != []
    ensures var before, last := lines[..|lines| - 1], lines[|lines| - 1];
            ProperLines(lines)
            <==> && (before == [] || ProperLines(before)) && last.quantity > 0
                 && forall n | 0 <= n < |before| :: before[n].product != last.product
  {
    var before := lines[..|lines| - 1];
    assert forall n | 0 <= n < |before| :: before[n] == lines[n];
  }

  lemma NextLine(lines: seq<QuoteLine>, quote: Quote)
    requires lines != [] && IsQuoteOf(quote, lines[..|lines| - 1])
    ensures var before, last := lines[..|lines| - 1], lines[|lines| - 1];
            && (last.product in quote <==> exists n | 0 <= n < |before| :: before[n].product == last.product)
            && (last.product !in quote ==> IsQuoteOf(quote[last.product := last.quantity], lines))
  {
    var before := lines[..|lines| - 1];
    assert forall n | 0 <= n < |before| :: before[n] == lines[n];
    assert lines[|before|] == lines[|lines| - 1];
  }

  /** A quote is accepted exactly when its lines are proper, of known products that may be quoted. */
  lemma QuoteAcceptedIff(l: Ledger, lines: seq<QuoteLine>, existing: set<ProductId>)
    ensures var r := ValidatedQuote(l, lines, existing);
            var proper, known := ProperLines(lines), KnownProducts(l, lines);
            && (r.Success? <==> proper && known && MayBeQuoted(l, lines, existing))
            && (r == Failure(InvalidQuote) <==> !proper)
            && (r == Failure(NotFound) <==> proper && !known)
            && (r == Failure(InactiveProduct) <==> proper && known && !MayBeQuoted(l, lines, existing))
            && (r.Success? ==> IsQuoteOf(r.value, lines))
  {
    QuantitiesIff(lines);
    if ProperLines(lines) {
      var quote := Quantities(lines).value;
      assert forall n | 0 <= n < |lines| :: lines[n].product in quote;
    }
  }

  // ---- What an operation leaves as it was ----

  predicate OthersKept(l: Ledger, after: Ledger, id: OpportunityId) {
    && |after.opportunities| == |l.opportunities|
    && (forall i | 0 <= i < |l.opportunities| && i != id :: after.opportunities[i] == l.opportunities[i])
    && after.customers == l.customers && after.products == l.products && after.users == l.users
  }

  /** The open notices of the opportunity are resolved at that time, and no other row is touched. */
  predicate NoticesClosed(l: Ledger, after: Ledger, id: OpportunityId, at: Time) {
    && |after.notices| == |l.notices|
    && forall n | 0 <= n < |l.notices| ::
         after.notices[n] == if l.notices[n].opportunity == id && l.notices[n].resolvedAt == None
                             then Notice(id, l.notices[n].createdAt, Some(at)) else l.notices[n]
  }

  /** The opportunity stands at a new stage since `at`, with one more history row, and its notices are closed. */
  predicate Moves(l: Ledger, after: Ledger, id: OpportunityId, to: Status, kind: Kind, actor: Option<UserId>, at: Time)
  {
    && id < |l.opportunities| && OthersKept(l, after, id) && NoticesClosed(l, after, id, at)
    && var was, o := l.opportunities[id], after.opportunities[id];
    && o.customer == was.customer && o.source == was.source && o.createdAt == was.createdAt
    && o.deletedAt == was.deletedAt
    && o.status == to && o.enteredAt == at && o.updatedAt == at
    && after.history == l.history + [History(id, Some(was.status), to, kind, at, actor)]
  }

  predicate Live(l: Ledger, id: OpportunityId) {
    id < |l.opportunities| && l.opportunities[id].deletedAt == None
  }

  predicate CustomerThere(l: Ledger, customer: CustomerId) {
    customer in l.customers && l.customers[customer].deleted == false
  }

  predicate MayAct(l: Ledger, actor: Option<UserId>) {
    actor == None || actor.value in l.users
  }

  /** Another opportunity of the customer came by WhatsApp, is open and not deleted. */
  predicate AnotherOpen(l: Ledger, customer: CustomerId, but: Option<OpportunityId>) {
    exists i | 0 <= i < |l.opportunities| ::
      && l.opportunities[i].customer == customer && l.opportunities[i].source == WhatsApp
      && l.opportunities[i].status in {Nueva, Cotizada, Negociacion} && l.opportunities[i].deletedAt == None
      && but != Some(i)
  }

  lemma AnotherOpenIff(l: Ledger, customer: CustomerId, but: Option<OpportunityId>)
    ensures OtherActive(l, customer, but) <==> AnotherOpen(l, customer, but)
  {
    assert forall i | 0 <= i < |l.opportunities| ::
        LiveWhatsApp(l.opportunities[i])
        <==> && l.opportunities[i].source == WhatsApp && l.opportunities[i].deletedAt == None
             && l.opportunities[i].status in {Nueva, Cotizada, Negociacion};
  }

  // ---- Creation ----

  lemma CreateIff(l: Ledger, customer: CustomerId, source: Source, owner: Option<UserId>, actor: Option<UserId>,
                  at: Time)
    ensures var r := Create(l, customer, source, owner, actor, at);
            var there := CustomerThere(l, customer);
            var taken := source == WhatsApp && AnotherOpen(l, customer, None);
            && (r.Success? <==> there && !taken && MayAct(l, owner) && MayAct(l, actor)
                                && (owner.Some? ==> l.users[owner.value]))
            && (r == Failure(DeletedCustomer) <==> customer in l.customers && !there)
            && (r == Failure(ActiveOpportunityExists) <==> there && taken)
            && (r == Failure(InactiveUser)
                <==> there && !taken && owner.Some? && owner.value in l.users && !l.users[owner.value])
            && (r.Failure? ==> r.error in {NotFound, DeletedCustomer, ActiveOpportunityExists, InactiveUser})
  {
    AnotherOpenIff(l, customer, None);
  }

  /** The new row, and nothing else but its first history row. */
  lemma CreatedRow(l: Ledger, customer: CustomerId, source: Source, owner: Option<UserId>, actor: Option<UserId>,
                   at: Time)
    requires Create(l, customer, source, owner, actor, at).Success?
    ensures var after, n := Create(l, customer, source, owner, actor, at).value, |l.opportunities|;
            && |after.opportunities| == n + 1 && after.opportunities[..n] == l.opportunities
            && var o := after.opportunities[n];
            && o.customer == customer && o.source == source && o.status == Nueva && o.quote == map[]
            && o.createdAt == at && o.enteredAt == at && o.updatedAt == at && o.deletedAt == None
            && o.reason == None && o.detail == None
            && after.history == l.history + [History(n, None, Nueva, Created, at, actor)]
            && after.notices == l.notices && after.losses == l.losses && after.reopens == l.reopens
            && after.customers == l.customers && after.products == l.products && after.users == l.users
  {
  }

  // ---- The way forward ----

  lemma QuoteIff(l: Ledger, id: OpportunityId, lines: seq<QuoteLine>, actor: Option<UserId>, at: Time)
    ensures var r := QuoteOpportunity(l, id, lines, actor, at);
            var isNew := Live(l, id) && l.opportunities[id].status == Nueva;
            && (r.Success? <==> isNew && MayAct(l, actor) && ProperLines(lines) && KnownProducts(l, lines)
                                && MayBeQuoted(l, lines, {}))
            && (r == Failure(Closed) <==> Live(l, id) && l.opportunities[id].status in {Ganada, Perdida})
            && (r == Failure(InvalidTransition)
                <==> Live(l, id) && l.opportunities[id].status in {Cotizada, Negociacion})
            && (r == Failure(InvalidQuote) <==> isNew && MayAct(l, actor) && !ProperLines(lines))
            && (r == Failure(InactiveProduct)
                <==> isNew && MayAct(l, actor) && ProperLines(lines) && KnownProducts(l, lines)
                     && !MayBeQuoted(l, lines, {}))
            && (r.Failure? ==> r.error in {NotFound, Closed, InvalidTransition, InvalidQuote, InactiveProduct})
  {
    QuoteAcceptedIff(l, lines, {});
  }

  lemma QuotedRow(l: Ledger, id: OpportunityId, lines: seq<QuoteLine>, actor: Option<UserId>, at: Time)
    requires QuoteOpportunity(l, id, lines, actor, at).Success?
    ensures var after := QuoteOpportunity(l, id, lines, actor, at).value;
            && Moves(l, after, id, Cotizada, StatusChanged, actor, at)
            && IsQuoteOf(after.opportunities[id].quote, lines)
            && after.opportunities[id].reason == None && after.opportunities[id].detail == None
            && after.losses == l.losses && after.reopens == l.reopens
  {
    QuoteAcceptedIff(l, lines, {});
  }

  /** An opportunity is negotiated from COTIZADA and won from NEGOCIACION, with a quote. */
  lemma AdvanceIff(l: Ledger, id: OpportunityId, win: bool, actor: Option<UserId>, at: Time)
    ensures var r := if win then Win(l, id, actor, at) else Negotiate(l, id, actor, at);
            var from := if win then Negociacion else Cotizada;
            && (r.Success? <==> Live(l, id) && l.opportunities[id].status == from && MayAct(l, actor)
                                && l.opportunities[id].quote != map[])
            && (r == Failure(Closed) <==> Live(l, id) && l.opportunities[id].status in {Ganada, Perdida})
            && (r == Failure(InvalidTransition)
                <==> Live(l, id) && l.opportunities[id].status in {Nueva, Cotizada, Negociacion} - {from})
            && (r == Failure(InvalidQuote)
                <==> Live(l, id) && l.opportunities[id].status == from && MayAct(l, actor)
                     && l.opportunities[id].quote == map[])
            && (r.Failure? ==> r.error in {NotFound, Closed, InvalidTransition, InvalidQuote})
  {
  }

  lemma AdvancedRow(l: Ledger, id: OpportunityId, win: bool, actor: Option<UserId>, at: Time)
    requires (if win then Win(l, id, actor, at) else Negotiate(l, id, actor, at)).Success?
    ensures var after := (if win then Win(l, id, actor, at) else Negotiate(l, id, actor, at)).value;
            && Moves(l, after, id, if win then Ganada else Negociacion, StatusChanged, actor, at)
            && after.opportunities[id].quote == l.opportunities[id].quote
            && after.opportunities[id].reason == None && after.opportunities[id].detail == None
            && after.losses == l.losses && after.reopens == l.reopens
  {
  }

  // ---- The way back ----

  /** GANADA goes back to NEGOCIACION and NEGOCIACION to COTIZADA, one step at a time. */
  predicate OneStepBack(from: Status, to: Status) {
    (from == Ganada && to == Negociacion) || (from == Negociacion && to == Cotizada)
  }

  /** The customer is there, the opportunity is not deleted. */
  predicate CanBeLocked(l: Ledger, id: OpportunityId) {
    Live(l, id) && CustomerThere(l, l.opportunities[id].customer)
  }

  predicate Crowded(l: Ledger, id: OpportunityId)
    requires id < |l.opportunities|
  {
    l.opportunities[id].source == WhatsApp && AnotherOpen(l, l.opportunities[id].customer, Some(id))
  }

  lemma RegressIff(l: Ledger, id: OpportunityId, expected: Status, target: Status, actor: UserId, at: Time)
    ensures var r := Regress(l, id, expected, target, actor, at);
            var locked := CanBeLocked(l, id);
            var back := locked && l.opportunities[id].status == expected && OneStepBack(expected, target);
            && (r.Success? <==> back && !Crowded(l, id) && actor in l.users && l.opportunities[id].quote != map[])
            && (r == Failure(DeletedCustomer)
                <==> id < |l.opportunities| && l.opportunities[id].customer in l.customers
                     && l.customers[l.opportunities[id].customer].deleted)
            && (r == Failure(InvalidTransition) <==> locked && !back)
            && (r == Failure(ActiveOpportunityExists) <==> back && Crowded(l, id))
            && (r == Failure(InvalidQuote)
                <==> back && !Crowded(l, id) && actor in l.users && l.opportunities[id].quote == map[])
            && (r.Failure? ==>
                  r.error in {NotFound, DeletedCustomer, InvalidTransition, ActiveOpportunityExists, InvalidQuote})
  {
    if id < |l.opportunities| {
      AnotherOpenIff(l, l.opportunities[id].customer, Some(id));
    }
  }

  lemma RegressedRow(l: Ledger, id: OpportunityId, expected: Status, target: Status, actor: UserId, at: Time)
    requires Regress(l, id, expected, target, actor, at).Success?
    ensures var after := Regress(l, id, expected, target, actor, at).value;
            && Moves(l, after, id, target, StatusChanged, Some(actor), at)
            && after.opportunities[id].quote == l.opportunities[id].quote
            && after.opportunities[id].reason == None && after.opportunities[id].detail == None
            && after.losses == l.losses && after.reopens == l.reopens
  {
  }

  // ---- Losing ----

  /** Only OTRO takes a detail, and it must: a text of one to 500 characters between its white space. */
  ghost predicate DetailGiven(reason: LossReason, detail: Option<string>, text: Option<string>) {
    if reason != Otro then detail == None && text == None
    else detail.Some? && text.Some? && NormalText(detail.value, text) && 1 <= |text.value| <= 500
  }

  lemma DetailIff(reason: LossReason, detail: Option<string>)
    ensures var r := NormalizedDetail(reason, detail);
            && (r.Success? <==> exists text :: DetailGiven(reason, detail, text))
            && (r.Success? ==> DetailGiven(reason, detail, r.value))
            && (r.Failure? ==> r.error == InvalidLossReason)
  {
    if reason == Otro && detail.Some? {
      StripIsNormal(detail.value);
      forall text | DetailGiven(reason, detail, text) ensures text == OptionalText(detail) {
        NormalTextUnique(detail.value, text, OptionalText(detail));
      }
      assert DetailGiven(reason, detail, OptionalText(detail)) <==> NormalizedDetail(reason, detail).Success?;
    } else if reason != Otro && detail.None? {
      assert DetailGiven(reason, detail, None);
    }
  }

  lemma LoseIff(l: Ledger, id: OpportunityId, reason: Option<LossReason>, detail: Option<string>, actor: Option<UserId>,
                at: Time)
    ensures var r := Lose(l, id, reason, detail, actor, at);
            var open := Live(l, id) && l.opportunities[id].status in {Nueva, Cotizada, Negociacion};
            var proper := reason.Some? && exists text :: DetailGiven(reason.value, detail, text);
            && (r.Success? <==> open && proper && MayAct(l, actor) && l.opportunities[id].customer in l.customers
                                && l.opportunities[id].quote.Keys <= l.products.Keys)
            && (r == Failure(Closed) <==> Live(l, id) && l.opportunities[id].status in {Ganada, Perdida})
            && (r == Failure(InvalidLossReason) <==> open && !proper)
            && (r.Failure? ==> r.error in {NotFound, Closed, InvalidLossReason})
  {
    if reason.Some? {
      DetailIff(reason.value, detail);
    }
  }

  /** Each quoted product once, in product order, with its quantity and the name it has now. */
  predicate Photographed(l: Ledger, quote: Quote, rows: seq<Snapshot>) {
    && |rows| == |quote|
    && (forall k | 0 <= k < |rows| ::
          && rows[k].product in quote && rows[k].quantity == quote[rows[k].product]
          && rows[k].product in l.products && rows[k].name == l.products[rows[k].product].name)
    && (forall j, k | 0 <= j < k < |rows| :: rows[j].product < rows[k].product)
  }

  /** The columns of the event a loss leaves. */
  ghost predicate RecordsLoss(l: Ledger, e: Loss, id: OpportunityId, reason: LossReason, detail: Option<string>,
                              actor: Option<UserId>, at: Time)
    requires id < |l.opportunities| && l.opportunities[id].customer in l.customers
  {
    var o := l.opportunities[id];
    var c := l.customers[o.customer];
    && e.opportunity == id && e.customer == o.customer && e.history == |l.history|
    && e.fromStatus == o.status && e.source == o.source && e.reason == reason && DetailGiven(reason, detail, e.detail)
    && (c.company == None ==> e.customerName == c.name)
    && (c.company.Some? ==> e.customerName == c.name + " " + c.company.value)
    && e.province == c.province && e.at == at && e.actor == actor
    && Photographed(l, o.quote, e.products) && e.total == Total(e.products)
  }

  lemma LostRow(l: Ledger, id: OpportunityId, reason: Option<LossReason>, detail: Option<string>, actor: Option<UserId>,
                at: Time)
    requires Lose(l, id, reason, detail, actor, at).Success?
    ensures var after := Lose(l, id, reason, detail, actor, at).value;
            && Moves(l, after, id, Perdida, Lost, actor, at)
            && |after.losses| == |l.losses| + 1 && after.losses[..|l.losses|] == l.losses
            && RecordsLoss(l, after.losses[|l.losses|], id, reason.value, detail, actor, at)
            && after.opportunities[id].quote == l.opportunities[id].quote
            && after.opportunities[id].reason == reason
            && after.opportunities[id].detail == after.losses[|l.losses|].detail
            && after.reopens == l.reopens
  {
    LoseIff(l, id, reason, detail, actor, at);
    DetailIff(reason.value, detail);
    SnapshotsOrdered(l.opportunities[id].quote, l.products);
  }

  // ---- Edits ----

  lemma EditIff(l: Ledger, id: OpportunityId, lines: seq<QuoteLine>, expected: Option<Time>, now: Time)
    ensures var r := UpdateQuote(l, id, lines, expected, now);
            var current := Live(l, id) && (expected == None || expected.value == l.opportunities[id].updatedAt);
            var editable := current && l.opportunities[id].status in {Cotizada, Negociacion};
            && (r.Success? <==> editable && ProperLines(lines) && KnownProducts(l, lines)
                                && MayBeQuoted(l, lines, l.opportunities[id].quote.Keys))
            && (r == Failure(NotFound)
                <==> !Live(l, id) || (editable && ProperLines(lines) && !KnownProducts(l, lines)))
            && (r == Failure(StaleWrite) <==> Live(l, id) && !current)
            && (r == Failure(Closed) <==> current && l.opportunities[id].status in {Ganada, Perdida})
            && (r == Failure(InvalidQuote)
                <==> current && (l.opportunities[id].status == Nueva || (editable && !ProperLines(lines))))
            && (r.Failure? ==> r.error in {NotFound, StaleWrite, Closed, InvalidQuote, InactiveProduct})
  {
    if Live(l, id) {
      QuoteAcceptedIff(l, lines, l.opportunities[id].quote.Keys);
    }
  }

  lemma EditedRow(l: Ledger, id: OpportunityId, lines: seq<QuoteLine>, expected: Option<Time>, now: Time)
    requires UpdateQuote(l, id, lines, expected, now).Success?
    ensures var after := UpdateQuote(l, id, lines, expected, now).value;
            && OthersKept(l, after, id)
            && IsQuoteOf(after.opportunities[id].quote, lines) && after.opportunities[id].updatedAt == now
            && after.opportunities[id]
               == l.opportunities[id].(quote := after.opportunities[id].quote, updatedAt := now)
            && after.history == l.history && after.notices == l.notices && after.losses == l.losses
            && after.reopens == l.reopens
  {
    QuoteAcceptedIff(l, lines, l.opportunities[id].quote.Keys);
  }

  // ---- Deletion ----

  /** A deletion is dated no earlier than the creation, stays dated as it was first, and closes the notices. */
  lemma DeleteIff(l: Ledger, id: OpportunityId, now: Time)
    ensures SoftDelete(l, id, now).Success? <==> id < |l.opportunities|
    ensures SoftDelete(l, id, now).Failure? ==> SoftDelete(l, id, now).error == NotFound
    ensures id < |l.opportunities| ==>
              var after, was := SoftDelete(l, id, now).value, l.opportunities[id];
              exists at ::
                && at >= now && at >= was.createdAt && at in {now, was.createdAt}
                && OthersKept(l, after, id) && NoticesClosed(l, after, id, at)
                && after.opportunities[id]
                   == (if was.deletedAt == None then was.(deletedAt := Some(at), updatedAt := at) else was)
                && after.history == l.history && after.losses == l.losses && after.reopens == l.reopens
  {
    if id < |l.opportunities| {
      var was := l.opportunities[id];
      var at := if now > was.createdAt then now else was.createdAt;
      assert NoticesClosed(l, SoftDelete(l, id, now).value, id, at);
    }
  }

  // ---- Reopening ----

  lemma ReopenIff(l: Ledger, id: OpportunityId, command: Uuid, expected: Status, actor: UserId, at: Time)
    requires !CommandUsed(l, command)
    ensures var r := ReopenOpportunity(l, id, command, expected, actor, at);
            var locked := CanBeLocked(l, id);
            var lost := locked && expected == Perdida && l.opportunities[id].status == Perdida;
            var hasLoss := exists i | 0 <= i < |l.losses| :: l.losses[i].opportunity == id;
            && (r.Success? <==> lost && actor in l.users && l.opportunities[id].quote != map[] && !Crowded(l, id)
                                && hasLoss)
            && (r == Failure(InvalidTransition)
                <==> locked && (!lost || (actor in l.users && l.opportunities[id].quote != map[] && !Crowded(l, id)
                                          && !hasLoss)))
            && (r == Failure(InvalidQuote) <==> lost && actor in l.users && l.opportunities[id].quote == map[])
            && (r == Failure(ActiveOpportunityExists)
                <==> lost && actor in l.users && l.opportunities[id].quote != map[] && Crowded(l, id))
            && (r == Failure(DeletedCustomer)
                <==> id < |l.opportunities| && l.opportunities[id].customer in l.customers
                     && l.customers[l.opportunities[id].customer].deleted)
            && (r.Failure? ==>
                  r.error in {NotFound, DeletedCustomer, InvalidTransition, InvalidQuote, ActiveOpportunityExists})
  {
    if id < |l.opportunities| {
      AnotherOpenIff(l, l.opportunities[id].customer, Some(id));
    }
  }

  lemma ReopenedRow(l: Ledger, id: OpportunityId, command: Uuid, expected: Status, actor: UserId, at: Time)
    requires !CommandUsed(l, command) && ReopenOpportunity(l, id, command, expected, actor, at).Success?
    ensures var after := ReopenOpportunity(l, id, command, expected, actor, at).value;
            && Moves(l, after, id, Negociacion, Reopened, Some(actor), at)
            && |after.reopens| == |l.reopens| + 1 && after.reopens[..|l.reopens|] == l.reopens
            && var r := after.reopens[|l.reopens|];
            && r.opportunity == id && r.history == |l.history| && r.actor == actor && r.command == command && r.at == at
            && r.loss < |l.losses| && l.losses[r.loss].opportunity == id
            && (forall i | r.loss < i < |l.losses| :: l.losses[i].opportunity != id)
            && after.opportunities[id].quote == l.opportunities[id].quote
            && after.opportunities[id].reason == None && after.opportunities[id].detail == None
            && after.losses == l.losses
  {
  }

  /** A command that was used answers as before only to the same request. */
  lemma UsedCommandIff(l: Ledger, id: OpportunityId, command: Uuid, expected: Status, actor: UserId, at: Time)
    requires CommandUsed(l, command)
    ensures var r := ReopenOpportunity(l, id, command, expected, actor, at);
            var same := && expected == Perdida
                        && exists i | 0 <= i < |l.reopens| ::
                             && l.reopens[i].command == command && l.reopens[i].opportunity == id
                             && l.reopens[i].actor == actor;
            && (r == Success(l) <==> same && Live(l, id))
            && (r == Failure(NotFound) <==> same && !Live(l, id))
            && (r == Failure(CommandReused) <==> !same)
            && (r.Success? || r.error in {NotFound, CommandReused})
  {
  }

  // ---- Notices ----

  /** Not deleted, open, and where it stands for at least that many days of 24 hours. */
  predicate StandsStill(o: Opportunity, now: Time, days: int) {
    && o.deletedAt == None && o.status in {Nueva, Cotizada, Negociacion}
    && now - o.enteredAt >= days * (24 * 60 * 60 * 1_000_000)
  }

  lemma {:induction false} NewNoticeIff(l: Ledger, now: Time, days: int, upTo: nat, id: OpportunityId)
    requires upTo <= |l.opportunities|
    ensures var added := NewNotices(l, now - Days(days), now, upTo);
            && (Notice(id, now, None) in added
                <==> id < upTo && StandsStill(l.opportunities[id], now, days) && !HasNotice(l.notices, id))
            && (forall n | n in added :: n == Notice(n.opportunity, now, None) && n.opportunity < upTo)
  {
    if upTo > 0 {
      NewNoticeIff(l, now, days, upTo - 1, id);
    }
  }

  /** A generation gives one new notice to exactly the opportunities that stand still and have none open. */
  lemma GenerationIff(l: Ledger, now: Time, days: int, id: OpportunityId)
    ensures GenerateNotices(l, now, days).Success? <==> days > 0
    ensures days > 0 ==>
              var after := GenerateNotices(l, now, days).value;
              && after == l.(notices := after.notices)
              && |l.notices| <= |after.notices| && after.notices[..|l.notices|] == l.notices
              && (Notice(id, now, None) in after.notices[|l.notices|..]
                  <==> id < |l.opportunities| && StandsStill(l.opportunities[id], now, days)
                       && !HasNotice(l.notices, id))
  {
    if days > 0 {
      NewNoticeIff(l, now, days, |l.opportunities|, id);
      var after := GenerateNotices(l, now, days).value;
      assert after.notices[|l.notices|..] == NewNotices(l, now - Days(days), now, |l.opportunities|);
    }
  }

  // ---- Over runs ----

  /** A lost opportunity shows the reason, the detail and the time of its newest loss. */
  predicate ShowsItsLoss(l: Ledger, id: OpportunityId)
    requires id < |l.opportunities|
  {
    var o, newest := l.opportunities[id], LatestLoss(l.losses, id);
    o.status == Perdida ==>
      && newest.Some? && o.reason == Some(l.losses[newest.value].reason)
      && o.detail == l.losses[newest.value].detail && o.enteredAt == l.losses[newest.value].at
  }

  lemma StillLost(l: Ledger, a: Action, id: OpportunityId)
    requires !a.DoLose? || Outcome(l, a).Failure?
    requires id < |Step(l, a).opportunities| && Step(l, a).opportunities[id].status == Perdida
    ensures id < |l.opportunities| && Step(l, a).losses == l.losses
    ensures var o, was := Step(l, a).opportunities[id], l.opportunities[id];
            was.status == Perdida && o.reason == was.reason && o.detail == was.detail && o.enteredAt == was.enteredAt
  {
  }

  lemma AnotherLoss(losses: seq<Loss>, more: seq<Loss>, id: OpportunityId)
    requires |more| == |losses| + 1 && more[..|losses|] == losses && more[|losses|].opportunity != id
    ensures LatestLoss(more, id) == LatestLoss(losses, id)
    ensures LatestLoss(losses, id).Some? ==>
              more[LatestLoss(losses, id).value] == losses[LatestLoss(losses, id).value]
  {
  }

  lemma StepShows(l: Ledger, a: Action, id: OpportunityId)
    requires forall i | 0 <= i < |l.opportunities| :: ShowsItsLoss(l, i)
    requires id < |Step(l, a).opportunities|
    ensures ShowsItsLoss(Step(l, a), id)
  {
    if a.DoLose? && Outcome(l, a).Success? {
      LostRow(l, a.id, a.reason, a.detail, a.actor, a.at);
      var losses := Step(l, a).losses;
      assert losses[..|losses| - 1] == l.losses;
      if id == a.id {
        assert LatestLoss(losses, id) == Some(|l.losses|);
      } else {
        assert ShowsItsLoss(l, id) && Step(l, a).opportunities[id] == l.opportunities[id];
        AnotherLoss(l.losses, losses, id);
      }
    } else if Step(l, a).opportunities[id].status == Perdida {
      StillLost(l, a, id);
      assert ShowsItsLoss(l, id);
    }
  }

  lemma {:induction false} LostShowsItsLoss(l: Ledger, actions: seq<Action>)
    requires Empty(l)
    ensures forall id | 0 <= id < |Run(l, actions).opportunities| :: ShowsItsLoss(Run(l, actions), id)
  {
    if actions != [] {
      LostShowsItsLoss(l, actions[..|actions| - 1]);
      var before, a := Run(l, actions[..|actions| - 1]), actions[|actions| - 1];
      forall id | 0 <= id < |Step(before, a).opportunities| ensures ShowsItsLoss(Step(before, a), id) {
        StepShows(before, a, id);
      }
    }
  }
}
