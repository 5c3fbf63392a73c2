/**
 The opportunity ledger: opportunities with their append-only history, loss events with product
 snapshots, reopen events and stale notices. Each service operation is a function on the ledger;
 one that raises answers with its error and leaves the ledger alone.
 */
module OpportunityLedger {
  import opened Wrappers
  import opened Trimming

  type OpportunityId = nat
  type CustomerId = nat
  type ProductId = nat
  type UserId = nat
  type Uuid = nat
  /** Microseconds. */
  type Time = int
  /** Thousandths of a kilogram. */
  type Quantity = int

  datatype Status = Nueva | Cotizada | Negociacion | Ganada | Perdida

  datatype Source = Web | WhatsApp | Referido | Instagram

  datatype LossReason = Precio | SinRespuesta | Competencia | ProyectoCancelado | Otro

  datatype Kind = Created | StatusChanged | Lost | Reopened

  type Quote = map<ProductId, Quantity>

  datatype Opportunity = Opportunity(customer: CustomerId, source: Source, createdAt: Time, status: Status,
                                     reason: Option<LossReason>, detail: Option<string>,
                                     enteredAt: Time, updatedAt: Time, deletedAt: Option<Time>, quote: Quote)

  /** A row of the status history; rows of all opportunities share one table and their ids are its indices. */
  datatype History = History(opportunity: OpportunityId, fromStatus: Option<Status>, toStatus: Status, kind: Kind,
                             at: Time, actor: Option<UserId>)

  datatype Snapshot = Snapshot(product: ProductId, name: string, quantity: Quantity)

  datatype Loss = Loss(opportunity: OpportunityId, customer: CustomerId, history: nat, fromStatus: Status,
                       reason: LossReason, detail: Option<string>, source: Source, customerName: string,
                       province: Option<string>, total: Quantity, products: seq<Snapshot>, at: Time,
                       actor: Option<UserId>)

  datatype Reopen = Reopen(opportunity: OpportunityId, loss: nat, history: nat, actor: UserId, command: Uuid, at: Time)

  datatype Notice = Notice(opportunity: OpportunityId, createdAt: Time, resolvedAt: Option<Time>)

  datatype Customer = Customer(name: string, company: Option<string>, province: Option<string>, deleted: bool)

  datatype Product = Product(name: string, active: bool)

  /** `users` says of each known user whether it is active. */
  datatype Ledger = Ledger(opportunities: seq<Opportunity>, history: seq<History>, losses: seq<Loss>,
                           reopens: seq<Reopen>, notices: seq<Notice>, customers: map<CustomerId, Customer>,
                           products: map<ProductId, Product>, users: map<UserId, bool>)

  datatype Error = NotFound | InactiveUser | DeletedCustomer | ActiveOpportunityExists | Closed | InvalidTransition
                 | InvalidQuote | InactiveProduct | InvalidLossReason | StaleWrite | CommandReused | InvalidThreshold

  datatype QuoteLine = QuoteLine(product: ProductId, quantity: Quantity)

  const DAY: int := 86_400_000_000

  function Days(n: int): Time {
    n * 86_400_000_000
  }

  predicate Terminal(s: Status) {
    s.Ganada? || s.Perdida?
  }

  predicate Active(s: Status) {
    s.Nueva? || s.Cotizada? || s.Negociacion?
  }

  // ---- Checks shared by the operations ----

  predicate Available(l: Ledger, id: OpportunityId) {
    id < |l.opportunities| && l.opportunities[id].deletedAt.None?
  }

  predicate KnownUser(l: Ledger, user: Option<UserId>) {
    user.None? || user.value in l.users
  }

  function CustomerError(l: Ledger, customer: CustomerId): Option<Error> {
    if customer !in l.customers then Some(NotFound)
    else if l.customers[customer].deleted then Some(DeletedCustomer)
    else None
  }

  /** The error of a forward step from `expected`; closed opportunities are refused first. */
  function StepError(l: Ledger, id: OpportunityId, expected: Status): Option<Error> {
    if !Available(l, id) then Some(NotFound)
    else if Terminal(l.opportunities[id].status) then Some(Closed)
    else if l.opportunities[id].status != expected then Some(InvalidTransition)
    else None
  }

  predicate LiveWhatsApp(o: Opportunity) {
    o.source.WhatsApp? && Active(o.status) && o.deletedAt.None?
  }

  predicate OtherActive(l: Ledger, customer: CustomerId, exclude: Option<OpportunityId>) {
    exists i | 0 <= i < |l.opportunities| ::
      l.opportunities[i].customer == customer && LiveWhatsApp(l.opportunities[i]) && exclude != Some(i)
  }

  /** Positive quantities, each product once. */
  function Quantities(lines: seq<QuoteLine>): Result<Quote, Error> {
    if lines == [] then Success(map[])
    else
      var before := Quantities(lines[..|lines| - 1]);
      var line := lines[|lines| - 1];
      if before.Failure? then before
      else if line.product in before.value || line.quantity <= 0 then Failure(InvalidQuote)
      else Success(before.value[line.product := line.quantity])
  }

  /** Inactive products may stay in a quote but not enter it. */
  function ValidatedQuote(l: Ledger, lines: seq<QuoteLine>, existing: set<ProductId>): Result<Quote, Error> {
    if lines == [] then Failure(InvalidQuote)
    else
      var quote := Quantities(lines);
      if quote.Failure? then quote
      else if exists p | p in quote.value :: p !in l.products then Failure(NotFound)
      else if exists p | p in quote.value :: p in l.products && !l.products[p].active && p !in existing
      then Failure(InactiveProduct)
      else quote
  }

  // ---- Transitions ----

  function Resolved(notices: seq<Notice>, id: OpportunityId, at: Time): seq<Notice> {
    seq(|notices|, i requires 0 <= i < |notices| =>
      if notices[i].opportunity == id && notices[i].resolvedAt.None?
      then notices[i].(resolvedAt := Some(at)) else notices[i])
  }

  function Transition(l: Ledger, id: OpportunityId, to: Status, actor: Option<UserId>, at: Time, kind: Kind,
                      reason: Option<LossReason>, detail: Option<string>): Ledger
    requires id < |l.opportunities|
  {
    var o := l.opportunities[id];
    var moved := o.(status := to, reason := reason, detail := detail, enteredAt := at, updatedAt := at);
    l.(opportunities := l.opportunities[id := moved],
       notices := Resolved(l.notices, id, at),
       history := l.history + [History(id, Some(o.status), to, kind, at, actor)])
  }

  function Moved(l: Ledger, id: OpportunityId, to: Status, actor: Option<UserId>, at: Time): Ledger
    requires id < |l.opportunities|
  {
    Transition(l, id, to, actor, at, StatusChanged, None, None)
  }

  function WithQuote(l: Ledger, id: OpportunityId, quote: Quote): Ledger
    requires id < |l.opportunities|
  {
    l.(opportunities := l.opportunities[id := l.opportunities[id].(quote := quote)])
  }

  // ---- Operations ----

  function Create(l: Ledger, customer: CustomerId, source: Source, owner: Option<UserId>, actor: Option<UserId>,
                  at: Time)
    : Result<Ledger, Error>
  {
    if CustomerError(l, customer).Some? then Failure(CustomerError(l, customer).value)
    else if source.WhatsApp? && OtherActive(l, customer, None) then Failure(ActiveOpportunityExists)
    else if !KnownUser(l, owner) then Failure(NotFound)
    else if owner.Some? && !l.users[owner.value] then Failure(InactiveUser)
    else if !KnownUser(l, actor) then Failure(NotFound)
    else
      var id := |l.opportunities|;
      Success(l.(opportunities := l.opportunities
                                  + [Opportunity(customer, source, at, Nueva, None, None, at, at, None, map[])],
                 history := l.history + [History(id, None, Nueva, Created, at, actor)]))
  }

  function QuoteOpportunity(l: Ledger, id: OpportunityId, lines: seq<QuoteLine>, actor: Option<UserId>, at: Time)
    : Result<Ledger, Error>
  {
    if StepError(l, id, Nueva).Some? then Failure(StepError(l, id, Nueva).value)
    else if !KnownUser(l, actor) then Failure(NotFound)
    else
      var quote := ValidatedQuote(l, lines, {});
      if quote.Failure? then Failure(quote.error)
      else Success(Moved(WithQuote(l, id, quote.value), id, Cotizada, actor, at))
  }

  /** The steps that need a quote and nothing else: COTIZADA to NEGOCIACION and NEGOCIACION to GANADA. */
  function Advance(l: Ledger, id: OpportunityId, expected: Status, target: Status, actor: Option<UserId>, at: Time)
    : Result<Ledger, Error>
  {
    if StepError(l, id, expected).Some? then Failure(StepError(l, id, expected).value)
    else if !KnownUser(l, actor) then Failure(NotFound)
    else if l.opportunities[id].quote == map[] then Failure(InvalidQuote)
    else Success(Moved(l, id, target, actor, at))
  }

  function Negotiate(l: Ledger, id: OpportunityId, actor: Option<UserId>, at: Time): Result<Ledger, Error> {
    Advance(l, id, Cotizada, Negociacion, actor, at)
  }

  function Win(l: Ledger, id: OpportunityId, actor: Option<UserId>, at: Time): Result<Ledger, Error> {
    Advance(l, id, Negociacion, Ganada, actor, at)
  }

  /** Locks the customer of an opportunity, then the opportunity itself. */
  function LockError(l: Ledger, id: OpportunityId): Option<Error> {
    if id >= |l.opportunities| then Some(NotFound)
    else if CustomerError(l, l.opportunities[id].customer).Some? then CustomerError(l, l.opportunities[id].customer)
    else if !Available(l, id) then Some(NotFound)
    else None
  }

  function RegressionTarget(s: Status): Option<Status> {
    match s
    case Ganada => Some(Negociacion)
    case Negociacion => Some(Cotizada)
    case _ => None
  }

  predicate SecondActive(l: Ledger, id: OpportunityId)
    requires id < |l.opportunities|
  {
    l.opportunities[id].source.WhatsApp? && OtherActive(l, l.opportunities[id].customer, Some(id))
  }

  function Regress(l: Ledger, id: OpportunityId, expected: Status, target: Status, actor: UserId, at: Time)
    : Result<Ledger, Error>
  {
    if LockError(l, id).Some? then Failure(LockError(l, id).value)
    else if l.opportunities[id].status != expected || RegressionTarget(l.opportunities[id].status) != Some(target)
    then Failure(InvalidTransition)
    else if SecondActive(l, id) then Failure(ActiveOpportunityExists)
    else if actor !in l.users then Failure(NotFound)
    else if l.opportunities[id].quote == map[] then Failure(InvalidQuote)
    else Success(Moved(l, id, target, Some(actor), at))
  }

  function NormalizedDetail(reason: LossReason, detail: Option<string>): Result<Option<string>, Error> {
    if !reason.Otro? then (if detail.Some? then Failure(InvalidLossReason) else Success(None))
    else if detail.None? then Failure(InvalidLossReason)
    else
      var text := Strip(detail.value);
      if text == "" || |text| > 500 then Failure(InvalidLossReason) else Success(Some(text))
  }

  // ---- Loss snapshots ----

  function Smallest(s: set<ProductId>): (p: ProductId)
    requires s != {}
    ensures p in s && forall q | q in s :: p <= q
  {
    SmallestExists(s);
    var p :| LeastOf(p, s);
    p
  }

  predicate LeastOf(p: ProductId, s: set<ProductId>) {
    p in s && forall q | q in s :: p <= q
  }

  lemma SmallestExists(s: set<ProductId>)
    requires s != {}
    ensures exists p :: LeastOf(p, s)
  {
    var x :| x in s;
    var rest := s - {x};
    if rest == {} {
      assert s == {x};
      assert LeastOf(x, s);
    } else {
      SmallestExists(rest);
      var y :| LeastOf(y, rest);
      assert forall q | q in s :: q == x || q in rest;
      assert LeastOf(if x < y then x else y, s);
    }
  }

  /** The quote in product order, with the names the products have now. */
  function Snapshots(quote: Quote, products: map<ProductId, Product>): seq<Snapshot>
    requires quote.Keys <= products.Keys
  {
    if quote == map[] then []
    else
      var p := Smallest(quote.Keys);
      [Snapshot(p, products[p].name, quote[p])] + Snapshots(quote - {p}, products)
  }

  function Total(products: seq<Snapshot>): Quantity {
    if products == [] then 0 else Total(products[..|products| - 1]) + products[|products| - 1].quantity
  }

  function DisplayName(c: Customer): string {
    if c.company.None? then c.name else c.name + " " + c.company.value
  }

  function LossOf(l: Ledger, id: OpportunityId, reason: LossReason, detail: Option<string>, actor: Option<UserId>,
                  at: Time): Loss
    requires id < |l.opportunities| && l.opportunities[id].customer in l.customers
    requires l.opportunities[id].quote.Keys <= l.products.Keys
  {
    var o := l.opportunities[id];
    var customer := l.customers[o.customer];
    var products := Snapshots(o.quote, l.products);
    Loss(id, o.customer, |l.history|, o.status, reason, detail, o.source, DisplayName(customer), customer.province,
         Total(products), products, at, actor)
  }

  function Lose(l: Ledger, id: OpportunityId, reason: Option<LossReason>, detail: Option<string>,
                actor: Option<UserId>, at: Time)
    : Result<Ledger, Error>
  {
    if !Available(l, id) then Failure(NotFound)
    else if Terminal(l.opportunities[id].status) then Failure(Closed)
    else if reason.None? then Failure(InvalidLossReason)
    else
      var text := NormalizedDetail(reason.value, detail);
      if text.Failure? then Failure(text.error)
      else if !KnownUser(l, actor) then Failure(NotFound)
      else if l.opportunities[id].customer !in l.customers || !(l.opportunities[id].quote.Keys <= l.products.Keys)
      then Failure(NotFound)
      else
        var loss := LossOf(l, id, reason.value, text.value, actor, at);
        Success(Transition(l, id, Perdida, actor, at, Lost, reason, text.value).(losses := l.losses + [loss]))
  }

  function UpdateQuote(l: Ledger, id: OpportunityId, lines: seq<QuoteLine>, expectedUpdatedAt: Option<Time>, now: Time)
    : Result<Ledger, Error>
  {
    if !Available(l, id) then Failure(NotFound)
    else
      var o := l.opportunities[id];
      if expectedUpdatedAt.Some? && expectedUpdatedAt.value != o.updatedAt then Failure(StaleWrite)
      else if Terminal(o.status) then Failure(Closed)
      else if o.status.Nueva? then Failure(InvalidQuote)
      else
        var quote := ValidatedQuote(l, lines, o.quote.Keys);
        if quote.Failure? then Failure(quote.error)
        else Success(l.(opportunities := l.opportunities[id := o.(quote := quote.value, updatedAt := now)]))
  }

  function SoftDelete(l: Ledger, id: OpportunityId, now: Time): Result<Ledger, Error> {
    if id >= |l.opportunities| then Failure(NotFound)
    else
      var o := l.opportunities[id];
      var at := if now > o.createdAt then now else o.createdAt;
      var deleted := if o.deletedAt.None? then o.(deletedAt := Some(at), updatedAt := at) else o;
      Success(l.(opportunities := l.opportunities[id := deleted], notices := Resolved(l.notices, id, at)))
  }

  // ---- Reopening ----

  predicate CommandUsed(l: Ledger, command: Uuid) {
    exists i | 0 <= i < |l.reopens| :: l.reopens[i].command == command
  }

  predicate SameReopening(r: Reopen, id: OpportunityId, expected: Status, actor: UserId) {
    r.opportunity == id && r.actor == actor && expected.Perdida?
  }

  /** The newest loss event of an opportunity. */
  function LatestLoss(losses: seq<Loss>, id: OpportunityId): (latest: Option<nat>)
    ensures latest.Some? ==> latest.value < |losses| && losses[latest.value].opportunity == id
                             && forall i | latest.value < i < |losses| :: losses[i].opportunity != id
    ensures latest.None? ==> forall i | 0 <= i < |losses| :: losses[i].opportunity != id
  {
    if losses == [] then None
    else if losses[|losses| - 1].opportunity == id then Some(|losses| - 1)
    else LatestLoss(losses[..|losses| - 1], id)
  }

  function ReopenAt(l: Ledger, id: OpportunityId, loss: nat, command: Uuid, actor: UserId, at: Time): Ledger
    requires id < |l.opportunities|
  {
    Transition(l, id, Negociacion, Some(actor), at, Reopened, None, None)
      .(reopens := l.reopens + [Reopen(id, loss, |l.history|, actor, command, at)])
  }

  function ReopenOpportunity(l: Ledger, id: OpportunityId, command: Uuid, expected: Status, actor: UserId, at: Time)
    : Result<Ledger, Error>
  {
    if CommandUsed(l, command) then
      if exists i | 0 <= i < |l.reopens| ::
           l.reopens[i].command == command && SameReopening(l.reopens[i], id, expected, actor)
      then (if Available(l, id) then Success(l) else Failure(NotFound))
      else Failure(CommandReused)
    else ReopenFresh(l, id, command, expected, actor, at)
  }

  /** A reopening under a command that is new. */
  function ReopenFresh(l: Ledger, id: OpportunityId, command: Uuid, expected: Status, actor: UserId, at: Time)
    : Result<Ledger, Error>
  {
    if LockError(l, id).Some? then Failure(LockError(l, id).value)
    else if !expected.Perdida? || !l.opportunities[id].status.Perdida? then Failure(InvalidTransition)
    else if actor !in l.users then Failure(NotFound)
    else if l.opportunities[id].quote == map[] then Failure(InvalidQuote)
    else if SecondActive(l, id) then Failure(ActiveOpportunityExists)
    else if LatestLoss(l.losses, id).None? then Failure(InvalidTransition)
    else Success(ReopenAt(l, id, LatestLoss(l.losses, id).value, command, actor, at))
  }

  // ---- Stale notices ----

  predicate HasNotice(notices: seq<Notice>, id: OpportunityId) {
    exists n | 0 <= n < |notices| :: notices[n].opportunity == id && notices[n].resolvedAt.None?
  }

  predicate Stale(o: Opportunity, before: Time) {
    o.deletedAt.None? && Active(o.status) && o.enteredAt <= before
  }

  /** The notices one generation adds, for the opportunities below `upTo`. */
  function NewNotices(l: Ledger, before: Time, now: Time, upTo: nat): seq<Notice>
    requires upTo <= |l.opportunities|
  {
    if upTo == 0 then []
    else
      var earlier := NewNotices(l, before, now, upTo - 1);
      if Stale(l.opportunities[upTo - 1], before) && !HasNotice(l.notices, upTo - 1)
      then earlier + [Notice(upTo - 1, now, None)] else earlier
  }

  function GenerateNotices(l: Ledger, now: Time, thresholdDays: int): Result<Ledger, Error> {
    if thresholdDays <= 0 then Failure(InvalidThreshold)
    else Success(l.(notices := l.notices + NewNotices(l, now - Days(thresholdDays), now, |l.opportunities|)))
  }

  // ---- Runs ----

  datatype Action =
    | DoCreate(customer: CustomerId, source: Source, owner: Option<UserId>, actor: Option<UserId>, at: Time)
    | DoQuote(id: OpportunityId, lines: seq<QuoteLine>, actor: Option<UserId>, at: Time)
    | DoNegotiate(id: OpportunityId, actor: Option<UserId>, at: Time)
    | DoWin(id: OpportunityId, actor: Option<UserId>, at: Time)
    | DoRegress(id: OpportunityId, expected: Status, target: Status, user: UserId, at: Time)
    | DoLose(id: OpportunityId, reason: Option<LossReason>, detail: Option<string>, actor: Option<UserId>, at: Time)
    | DoUpdateQuote(id: OpportunityId, lines: seq<QuoteLine>, expectedUpdatedAt: Option<Time>, at: Time)
    | DoDelete(id: OpportunityId, at: Time)
    | DoReopen(id: OpportunityId, command: Uuid, expected: Status, user: UserId, at: Time)
    | DoGenerate(at: Time, thresholdDays: int)
    | CustomerChanged(customer: CustomerId, row: Customer)
    | ProductChanged(product: ProductId, item: Product)
    | UsersChanged(users: map<UserId, bool>)

  function Outcome(l: Ledger, a: Action): Result<Ledger, Error> {
    match a
    case DoCreate(customer, source, owner, actor, at) => Create(l, customer, source, owner, actor, at)
    case DoQuote(id, lines, actor, at) => QuoteOpportunity(l, id, lines, actor, at)
    case DoNegotiate(id, actor, at) => Negotiate(l, id, actor, at)
    case DoWin(id, actor, at) => Win(l, id, actor, at)
    case DoRegress(id, expected, target, user, at) => Regress(l, id, expected, target, user, at)
    case DoLose(id, reason, detail, actor, at) => Lose(l, id, reason, detail, actor, at)
    case DoUpdateQuote(id, lines, expectedUpdatedAt, at) => UpdateQuote(l, id, lines, expectedUpdatedAt, at)
    case DoDelete(id, at) => SoftDelete(l, id, at)
    case DoReopen(id, command, expected, user, at) => ReopenOpportunity(l, id, command, expected, user, at)
    case DoGenerate(at, thresholdDays) => GenerateNotices(l, at, thresholdDays)
    case CustomerChanged(customer, row) => Success(l.(customers := l.customers[customer := row]))
    case ProductChanged(product, item) => Success(l.(products := l.products[product := item]))
    case UsersChanged(users) => Success(l.(users := users))
  }

  function Step(l: Ledger, a: Action): Ledger {
    var outcome := Outcome(l, a);
    if outcome.Success? then outcome.value else l
  }

  function Run(l: Ledger, actions: seq<Action>): Ledger {
    if actions == [] then l else Step(Run(l, actions[..|actions| - 1]), actions[|actions| - 1])
  }

  predicate Empty(l: Ledger) {
    l.opportunities == [] && l.history == [] && l.losses == [] && l.reopens == [] && l.notices == []
  }
}
