/**
 The opportunity service over mutable rows. Each operation is proved against the function on the
 ledger; one that answers with an error has written nothing.
 */
module OpportunityStore {
  import opened Wrappers
  import opened OpportunityLedger

  class OpportunityRow {
    const customer: CustomerId
    const source: Source
    const createdAt: Time
    var status: Status
    var reason: Option<LossReason>
    var detail: Option<string>
    var enteredAt: Time
    var updatedAt: Time
    var deletedAt: Option<Time>
    var quote: Quote

    ghost function Value(): Opportunity
      reads this
    {
      Opportunity(customer, source, createdAt, status, reason, detail, enteredAt, updatedAt, deletedAt, quote)
    }

    constructor (customer: CustomerId, source: Source, at: Time)
      ensures Value() == Opportunity(customer, source, at, Nueva, None, None, at, at, None, map[])
    {
      this.customer, this.source, createdAt := customer, source, at;
      status, reason, detail, quote := Nueva, None, None, map[];
      enteredAt, updatedAt, deletedAt := at, at, None;
    }

    /** Removes the lines of dropped products, then inserts or updates the others one by one. */
    method ReplaceQuote(quantities: Quote)
      modifies this`quote
      ensures quote == quantities
    {
      DropLines(quantities.Keys);
      WriteLines(quantities);
    }

    method DropLines(kept: set<ProductId>)
      modifies this`quote
      ensures quote.Keys <= kept
    {
      var dropped := quote.Keys - kept;
      while dropped != {}
        invariant quote.Keys <= kept + dropped
        decreases |dropped|
      {
        var p :| p in dropped;
        quote := quote - {p};
        dropped := dropped - {p};
      }
    }

    method WriteLines(quantities: Quote)
      requires quote.Keys <= quantities.Keys
      modifies this`quote
      ensures quote == quantities
    {
      var pending := quantities.Keys;
      while pending != {}
        invariant pending <= quantities.Keys && quote.Keys <= quantities.Keys
        invariant forall p | p in quantities :: p in pending || (p in quote && quote[p] == quantities[p])
        decreases |pending|
      {
        var p :| p in pending;
        quote := quote[p := quantities[p]];
        pending := pending - {p};
      }
    }
  }

  class Store {
    var rows: seq<OpportunityRow>
    var history: seq<History>
    var losses: seq<Loss>
    var reopens: seq<Reopen>
    var notices: seq<Notice>
    var customers: map<CustomerId, Customer>
    var products: map<ProductId, Product>
    var users: map<UserId, bool>

    constructor (customers: map<CustomerId, Customer>, products: map<ProductId, Product>, users: map<UserId, bool>)
      ensures Valid() && Empty(View())
      ensures View().customers == customers && View().products == products && View().users == users
    {
      rows, history, losses, reopens, notices := [], [], [], [], [];
      this.customers, this.products, this.users := customers, products, users;
      new;
      assert Values() == [];
    }

    ghost predicate Valid()
      reads this
    {
      forall i, j | 0 <= i < j < |rows| :: rows[i] != rows[j]
    }

    ghost function Values(): seq<Opportunity>
      reads this, rows
    {
      seq(|rows|, i requires 0 <= i < |rows| reads this, rows => rows[i].Value())
    }

    ghost function View(): Ledger
      reads this, rows
    {
      Ledger(Values(), history, losses, reopens, notices, customers, products, users)
    }

    /** What a call answers and leaves behind, given the outcome that the ledger prescribes. */
    ghost predicate Answers(was: Ledger, outcome: Result<Ledger, Error>, error: Option<Error>)
      reads this, rows
    {
      match outcome
      case Success(after) => error.None? && View() == after
      case Failure(e) => error == Some(e) && View() == was
    }

    // ---- Checks ----

    method CheckCustomer(customer: CustomerId) returns (error: Option<Error>)
      ensures error == CustomerError(View(), customer)
    {
      if customer !in customers {
        return Some(NotFound);
      }
      return if customers[customer].deleted then Some(DeletedCustomer) else None;
    }

    method CheckStep(id: OpportunityId, expected: Status) returns (error: Option<Error>)
      ensures error == StepError(View(), id, expected)
    {
      if id >= |rows| {
        return Some(NotFound);
      }
      var row := rows[id];
      assert Values()[id] == row.Value();
      if row.deletedAt.Some? {
        return Some(NotFound);
      }
      if Terminal(row.status) {
        return Some(Closed);
      }
      return if row.status != expected then Some(InvalidTransition) else None;
    }

    method CheckLock(id: OpportunityId) returns (error: Option<Error>)
      ensures error == LockError(View(), id)
    {
      if id >= |rows| {
        return Some(NotFound);
      }
      var row := rows[id];
      assert Values()[id] == row.Value();
      error := CheckCustomer(row.customer);
      if error.None? && row.deletedAt.Some? {
        error := Some(NotFound);
      }
    }

    /** The first live WhatsApp opportunity of a customer, other than the excluded one. */
    method ActiveWhatsApp(customer: CustomerId, exclude: Option<OpportunityId>) returns (active: Option<OpportunityId>)
      ensures active.Some? <==> OtherActive(View(), customer, exclude)
      ensures active.Some? ==>
                && active.value < |rows| && exclude != Some(active.value)
                && Values()[active.value].customer == customer && LiveWhatsApp(Values()[active.value])
                && forall j | 0 <= j < active.value ::
                     !(Values()[j].customer == customer && LiveWhatsApp(Values()[j]) && exclude != Some(j))
    {
      for i := 0 to |rows|
        invariant forall j | 0 <= j < i ::
                    !(Values()[j].customer == customer && LiveWhatsApp(Values()[j]) && exclude != Some(j))
      {
        var row := rows[i];
        assert Values()[i] == row.Value();
        if row.customer == customer && row.source.WhatsApp? && Active(row.status) && row.deletedAt.None?
           && exclude != Some(i) {
          return Some(i);
        }
      }
      return None;
    }

    method ValidateQuote(lines: seq<QuoteLine>, existing: set<ProductId>) returns (quote: Result<Quote, Error>)
      ensures quote == ValidatedQuote(View(), lines, existing)
    {
      if lines == [] {
        return Failure(InvalidQuote);
      }
      var quantities: Quote := map[];
      for n := 0 to |lines|
        invariant OpportunityLedger.Quantities(lines[..n]) == Success(quantities)
      {
        assert lines[..n + 1][..n] == lines[..n];
        if lines[n].product in quantities || lines[n].quantity <= 0 {
          RefusedPrefix(lines, n + 1);
          return Failure(InvalidQuote);
        }
        quantities := quantities[lines[n].product := lines[n].quantity];
      }
      assert lines[..|lines|] == lines;
      if !(quantities.Keys <= products.Keys) {
        return Failure(NotFound);
      }
      if exists p | p in quantities :: !products[p].active && p !in existing {
        return Failure(InactiveProduct);
      }
      return Success(quantities);
    }

    // ---- Writes ----

    method ResolveNotices(id: OpportunityId, at: Time)
      modifies this`notices
      ensures notices == Resolved(old(notices), id, at)
    {
      var updated: seq<Notice> := [];
      for n := 0 to |notices|
        invariant notices == old(notices) && |updated| == n
        invariant forall m | 0 <= m < n :: updated[m] == Resolved(notices, id, at)[m]
      {
        var notice := notices[n];
        if notice.opportunity == id && notice.resolvedAt.None? {
          notice := notice.(resolvedAt := Some(at));
        }
        updated := updated + [notice];
      }
      notices := updated;
    }

    method TransitionTo(id: OpportunityId, to: Status, actor: Option<UserId>, at: Time, kind: Kind,
                        reason: Option<LossReason>, detail: Option<string>)
      requires Valid() && id < |rows|
      modifies this`notices, this`history, rows[id]
      ensures View() == Transition(old(View()), id, to, actor, at, kind, reason, detail)
    {
      var row := rows[id];
      var fromStatus := row.status;
      row.status, row.reason, row.detail := to, reason, detail;
      row.enteredAt, row.updatedAt := at, at;
      ResolveNotices(id, at);
      history := history + [History(id, Some(fromStatus), to, kind, at, actor)];
      assert Values() == Transition(old(View()), id, to, actor, at, kind, reason, detail).opportunities;
    }

    method SetQuote(id: OpportunityId, quote: Quote)
      requires Valid() && id < |rows|
      modifies rows[id]
      ensures View() == WithQuote(old(View()), id, quote)
    {
      rows[id].ReplaceQuote(quote);
      assert Values() == WithQuote(old(View()), id, quote).opportunities;
    }

    // ---- Operations ----

    method CreateOpportunity(customer: CustomerId, source: Source, owner: Option<UserId>, actor: Option<UserId>,
                             at: Time)
      returns (error: Option<Error>)
      requires Valid()
      modifies this`rows, this`history
      ensures Valid()
      ensures Answers(old(View()), Create(old(View()), customer, source, owner, actor, at), error)
    {
      error := CheckCustomer(customer);
      if error.Some? {
        return;
      }
      if source.WhatsApp? {
        var active := ActiveWhatsApp(customer, None);
        if active.Some? {
          return Some(ActiveOpportunityExists);
        }
      }
      if owner.Some? && owner.value !in users {
        return Some(NotFound);
      }
      if owner.Some? && !users[owner.value] {
        return Some(InactiveUser);
      }
      if actor.Some? && actor.value !in users {
        return Some(NotFound);
      }
      AppendOpportunity(customer, source, actor, at);
      return None;
    }

    method AppendOpportunity(customer: CustomerId, source: Source, actor: Option<UserId>, at: Time)
      requires Valid()
      modifies this`rows, this`history
      ensures Valid()
      ensures var added := Opportunity(customer, source, at, Nueva, None, None, at, at, None, map[]);
              View() == old(View()).(opportunities := old(Values()) + [added],
                                     history := old(history) + [History(|old(rows)|, None, Nueva, Created, at, actor)])
    {
      ghost var was := Values();
      var row := new OpportunityRow(customer, source, at);
      history := history + [History(|rows|, None, Nueva, Created, at, actor)];
      rows := rows + [row];
      assert Values() == was + [row.Value()];
    }

    method Quote(id: OpportunityId, lines: seq<QuoteLine>, actor: Option<UserId>, at: Time)
      returns (error: Option<Error>)
      requires Valid()
      modifies this`notices, this`history, rows
      ensures Valid()
      ensures Answers(old(View()), QuoteOpportunity(old(View()), id, lines, actor, at), error)
    {
      error := CheckStep(id, Nueva);
      if error.Some? {
        return;
      }
      if actor.Some? && actor.value !in users {
        return Some(NotFound);
      }
      var quote := ValidateQuote(lines, {});
      if quote.Failure? {
        return Some(quote.error);
      }
      SetQuote(id, quote.value);
      TransitionTo(id, Cotizada, actor, at, StatusChanged, None, None);
    }

    method AdvanceTo(id: OpportunityId, expected: Status, target: Status, actor: Option<UserId>, at: Time)
      returns (error: Option<Error>)
      requires Valid()
      modifies this`notices, this`history, rows
      ensures Valid()
      ensures Answers(old(View()), Advance(old(View()), id, expected, target, actor, at), error)
    {
      error := CheckStep(id, expected);
      if error.Some? {
        return;
      }
      if actor.Some? && actor.value !in users {
        return Some(NotFound);
      }
      assert Values()[id] == rows[id].Value();
      if rows[id].quote == map[] {
        return Some(InvalidQuote);
      }
      TransitionTo(id, target, actor, at, StatusChanged, None, None);
    }

    method RegressStage(id: OpportunityId, expected: Status, target: Status, actor: UserId, at: Time)
      returns (error: Option<Error>)
      requires Valid()
      modifies this`notices, this`history, rows
      ensures Valid()
      ensures Answers(old(View()), Regress(old(View()), id, expected, target, actor, at), error)
    {
      error := CheckLock(id);
      if error.Some? {
        return;
      }
      var row := rows[id];
      assert Values()[id] == row.Value();
      if row.status != expected || RegressionTarget(row.status) != Some(target) {
        return Some(InvalidTransition);
      }
      error := CheckSecond(id);
      if error.Some? {
        return;
      }
      if actor !in users {
        return Some(NotFound);
      }
      if row.quote == map[] {
        return Some(InvalidQuote);
      }
      TransitionTo(id, target, Some(actor), at, StatusChanged, None, None);
    }

    method CheckSecond(id: OpportunityId) returns (error: Option<Error>)
      requires id < |rows|
      ensures error == if SecondActive(View(), id) then Some(ActiveOpportunityExists) else None
    {
      var row := rows[id];
      assert Values()[id] == row.Value();
      if row.source.WhatsApp? {
        var active := ActiveWhatsApp(row.customer, Some(id));
        if active.Some? {
          return Some(ActiveOpportunityExists);
        }
      }
      return None;
    }

    /** The loss event of an opportunity, with its total accumulated line by line. */
    method BuildLoss(id: OpportunityId, fromStatus: Status, entry: nat, reason: LossReason, detail: Option<string>,
                     actor: Option<UserId>, at: Time)
      returns (loss: Loss)
      requires id < |rows| && rows[id].customer in customers && rows[id].quote.Keys <= products.Keys
      ensures loss == Loss(id, rows[id].customer, entry, fromStatus, reason, detail, rows[id].source,
                           DisplayName(customers[rows[id].customer]), customers[rows[id].customer].province,
                           Total(Snapshots(rows[id].quote, products)), Snapshots(rows[id].quote, products), at, actor)
    {
      var row := rows[id];
      var customer := customers[row.customer];
      var lines := Snapshots(row.quote, products);
      var total := 0;
      for n := 0 to |lines|
        invariant total == Total(lines[..n])
      {
        assert lines[..n + 1][..n] == lines[..n];
        total := total + lines[n].quantity;
      }
      assert lines[..|lines|] == lines;
      loss := Loss(id, row.customer, entry, fromStatus, reason, detail, row.source, DisplayName(customer),
                   customer.province, total, lines, at, actor);
    }

    method MarkAsLost(id: OpportunityId, reason: Option<LossReason>, detail: Option<string>, actor: Option<UserId>,
                      at: Time)
      returns (error: Option<Error>)
      requires Valid()
      modifies this`notices, this`history, this`losses, rows
      ensures Valid()
      ensures Answers(old(View()), Lose(old(View()), id, reason, detail, actor, at), error)
    {
      if id >= |rows| {
        return Some(NotFound);
      }
      var row := rows[id];
      assert Values()[id] == row.Value();
      if row.deletedAt.Some? {
        return Some(NotFound);
      }
      if Terminal(row.status) {
        return Some(Closed);
      }
      if reason.None? {
        return Some(InvalidLossReason);
      }
      var text := NormalizedDetail(reason.value, detail);
      if text.Failure? {
        return Some(text.error);
      }
      if actor.Some? && actor.value !in users {
        return Some(NotFound);
      }
      if row.customer !in customers || !(row.quote.Keys <= products.Keys) {
        return Some(NotFound);
      }
      var loss := BuildLoss(id, row.status, |history|, reason.value, text.value, actor, at);
      assert loss == LossOf(old(View()), id, reason.value, text.value, actor, at);
      WriteLoss(id, loss, actor, at);
      return None;
    }

    method WriteLoss(id: OpportunityId, loss: Loss, actor: Option<UserId>, at: Time)
      requires Valid() && id < |rows|
      modifies this`notices, this`history, this`losses, rows
      ensures Valid()
      ensures View() == Transition(old(View()), id, Perdida, actor, at, Lost, Some(loss.reason), loss.detail)
                        .(losses := old(losses) + [loss])
    {
      TransitionTo(id, Perdida, actor, at, Lost, Some(loss.reason), loss.detail);
      ghost var moved := View();
      losses := losses + [loss];
      assert Values() == moved.opportunities;
    }

    method UpdateQuoteProducts(id: OpportunityId, lines: seq<QuoteLine>, expectedUpdatedAt: Option<Time>, now: Time)
      returns (error: Option<Error>)
      requires Valid()
      modifies rows
      ensures Valid()
      ensures Answers(old(View()), UpdateQuote(old(View()), id, lines, expectedUpdatedAt, now), error)
    {
      if id >= |rows| {
        return Some(NotFound);
      }
      var row := rows[id];
      assert Values()[id] == row.Value();
      if row.deletedAt.Some? {
        return Some(NotFound);
      }
      if expectedUpdatedAt.Some? && expectedUpdatedAt.value != row.updatedAt {
        return Some(StaleWrite);
      }
      if Terminal(row.status) {
        return Some(Closed);
      }
      if row.status.Nueva? {
        return Some(InvalidQuote);
      }
      var quote := ValidateQuote(lines, row.quote.Keys);
      if quote.Failure? {
        return Some(quote.error);
      }
      row.ReplaceQuote(quote.value);
      row.updatedAt := now;
      assert Values() == UpdateQuote(old(View()), id, lines, expectedUpdatedAt, now).value.opportunities;
      return None;
    }

    method SoftDeleteOpportunity(id: OpportunityId, now: Time) returns (error: Option<Error>)
      requires Valid()
      modifies this`notices, rows
      ensures Valid()
      ensures Answers(old(View()), SoftDelete(old(View()), id, now), error)
    {
      if id >= |rows| {
        return Some(NotFound);
      }
      var row := rows[id];
      assert Values()[id] == row.Value();
      var at := if now > row.createdAt then now else row.createdAt;
      if row.deletedAt.None? {
        row.deletedAt, row.updatedAt := Some(at), at;
      }
      ResolveNotices(id, at);
      assert Values() == SoftDelete(old(View()), id, now).value.opportunities;
      return None;
    }

    /** The newest loss event of an opportunity. */
    method FindLatestLoss(id: OpportunityId) returns (latest: Option<nat>)
      ensures latest == LatestLoss(losses, id)
    {
      var n := |losses|;
      assert losses[..n] == losses;
      while n > 0
        invariant 0 <= n <= |losses| && LatestLoss(losses, id) == LatestLoss(losses[..n], id)
      {
        n := n - 1;
        assert losses[..n + 1][..n] == losses[..n];
        if losses[n].opportunity == id {
          return Some(n);
        }
      }
      return None;
    }

    method FindCommand(command: Uuid) returns (replay: Option<nat>)
      ensures replay.None? <==> !CommandUsed(View(), command)
      ensures replay.Some? ==> replay.value < |reopens| && reopens[replay.value].command == command
    {
      for i := 0 to |reopens|
        invariant forall j | 0 <= j < i :: reopens[j].command != command
      {
        if reopens[i].command == command {
          return Some(i);
        }
      }
      return None;
    }

    /** A command id names at most one reopening, so the first match is the only one. */
    method ReopenLost(id: OpportunityId, command: Uuid, expected: Status, actor: UserId, at: Time)
      returns (error: Option<Error>)
      requires Valid()
      requires forall i, j | 0 <= i < j < |reopens| :: reopens[i].command != reopens[j].command
      modifies this`notices, this`history, this`reopens, rows
      ensures Valid()
      ensures Answers(old(View()), ReopenOpportunity(old(View()), id, command, expected, actor, at), error)
    {
      var replay := FindCommand(command);
      if replay.Some? {
        if !SameReopening(reopens[replay.value], id, expected, actor) {
          return Some(CommandReused);
        }
        if id >= |rows| {
          return Some(NotFound);
        }
        assert Values()[id] == rows[id].Value();
        return if rows[id].deletedAt.Some? then Some(NotFound) else None;
      }
      error := ReopenNew(id, command, expected, actor, at);
    }

    method ReopenNew(id: OpportunityId, command: Uuid, expected: Status, actor: UserId, at: Time)
      returns (error: Option<Error>)
      requires Valid()
      modifies this`notices, this`history, this`reopens, rows
      ensures Valid()
      ensures Answers(old(View()), ReopenFresh(old(View()), id, command, expected, actor, at), error)
    {
      error := CheckLock(id);
      if error.Some? {
        return;
      }
      var row := rows[id];
      assert Values()[id] == row.Value();
      if !expected.Perdida? || !row.status.Perdida? {
        return Some(InvalidTransition);
      }
      if actor !in users {
        return Some(NotFound);
      }
      if row.quote == map[] {
        return Some(InvalidQuote);
      }
      error := CheckSecond(id);
      if error.Some? {
        return;
      }
      var loss := FindLatestLoss(id);
      if loss.None? {
        return Some(InvalidTransition);
      }
      WriteReopening(id, loss.value, command, actor, at);
    }

    method WriteReopening(id: OpportunityId, loss: nat, command: Uuid, actor: UserId, at: Time)
      requires Valid() && id < |rows|
      modifies this`notices, this`history, this`reopens, rows[id]
      ensures View() == ReopenAt(old(View()), id, loss, command, actor, at)
    {
      var entry := |history|;
      TransitionTo(id, Negociacion, Some(actor), at, Reopened, None, None);
      ghost var moved := View();
      reopens := reopens + [Reopen(id, loss, entry, actor, command, at)];
      assert Values() == moved.opportunities;
    }

    method GenerateStaleNotices(now: Time, thresholdDays: int) returns (error: Option<Error>, created: nat)
      requires Valid()
      modifies this`notices
      ensures Answers(old(View()), GenerateNotices(old(View()), now, thresholdDays), error)
      ensures |notices| == |old(notices)| + created
    {
      if thresholdDays <= 0 {
        return Some(InvalidThreshold), 0;
      }
      var before := now - Days(thresholdDays);
      var added: seq<Notice> := [];
      for i := 0 to |rows|
        invariant View() == old(View())
        invariant added == NewNotices(View(), before, now, i)
      {
        var row := rows[i];
        assert Values()[i] == row.Value();
        if row.deletedAt.None? && Active(row.status) && row.enteredAt <= before {
          var noticed := HasOpenNotice(i);
          if !noticed {
            added := added + [Notice(i, now, None)];
          }
        }
      }
      notices := notices + added;
      assert Values() == old(Values());
      return None, |added|;
    }

    method HasOpenNotice(id: OpportunityId) returns (found: bool)
      ensures found <==> HasNotice(notices, id)
    {
      for n := 0 to |notices|
        invariant forall m | 0 <= m < n :: !(notices[m].opportunity == id && notices[m].resolvedAt.None?)
      {
        if notices[n].opportunity == id && notices[n].resolvedAt.None? {
          return true;
        }
      }
      return false;
    }
  }

  /** A quote refused within its first lines stays refused. */
  lemma {:induction false} RefusedPrefix(lines: seq<QuoteLine>, n: nat)
    requires n <= |lines| && OpportunityLedger.Quantities(lines[..n]) == Failure(InvalidQuote)
    ensures OpportunityLedger.Quantities(lines) == Failure(InvalidQuote)
    decreases |lines|
  {
    if n == |lines| {
      assert lines[..n] == lines;
    } else {
      assert lines[..|lines| - 1][..n] == lines[..n];
      RefusedPrefix(lines[..|lines| - 1], n);
    }
  }
}
