/**
 The database of one broadcast, and each transaction of the broadcast and message services as
 a function on it. A transaction that raises leaves the database as it was: it is `None`.
 */
module BroadcastTransactions {
  import opened Wrappers
  import opened BroadcastModel
  import Consent
  import Payload
  import Digest

  datatype Customer = Customer(phone: Option<Phone>, deleted: bool)

  datatype Conversation = Conversation(customer: Option<CustomerId>, resolved: bool, hidden: bool)

  datatype AuditKind = RecipientsReplaced | DraftEdited | Validated | Confirmed | Started | Processed
                     | RetryAuthorized | StaleClaimRecovered | Blocked | Completed

  datatype Audit = Audit(kind: AuditKind, command: Option<Uuid>, affected: nat)

  datatype Broadcast = Broadcast(id: nat, status: BroadcastStatus, version: nat, draft: Digest.Draft,
                                 template: Payload.Template, validationToken: Option<Uuid>, validationDigest: string,
                                 validUntil: Time, confirmedBy: Option<UserId>, startedBy: Option<UserId>,
                                 firstCompletedAt: Option<Time>, lastCompletedAt: Option<Time>)

  /** Service settings: how many recipients one call claims and how long a claim may last. */
  datatype Settings = Settings(batchSize: nat, claimTimeout: int)

  datatype Database = Database(settings: Settings, broadcast: Broadcast, recipients: seq<Recipient>,
                               audits: seq<Audit>, consents: seq<Consent.Event>,
                               customers: map<CustomerId, Customer>, conversations: map<Phone, Conversation>,
                               activeUsers: set<UserId>)

  /** External facts a transaction reads: the provider's template list and the media store. */
  datatype Checks = Checks(templateAvailable: bool, mediaAvailable: bool)

  /** Ten minutes in microseconds. */
  const VALIDATION_TTL: int := 600_000_000

  predicate CommandExists(db: Database, command: Uuid) {
    exists i | 0 <= i < |db.audits| :: db.audits[i].command == Some(command)
  }

  function Audited(db: Database, kind: AuditKind, command: Option<Uuid>, affected: nat): Database {
    db.(audits := db.audits + [Audit(kind, command, affected)])
  }

  function WithRecipient(db: Database, id: RecipientId, r: Recipient): Database
    requires id < |db.recipients|
  {
    db.(recipients := db.recipients[id := r])
  }

  function ConsentKey(r: Recipient): Consent.Key {
    Consent.Key(r.customer, r.phone)
  }

  predicate OwnsPhone(db: Database, customer: CustomerId, phone: Phone) {
    customer in db.customers && !db.customers[customer].deleted && db.customers[customer].phone == Some(phone)
  }

  predicate Eligible(db: Database, r: Recipient, now: Time) {
    OwnsPhone(db, r.customer, r.phone) && Consent.OptedIn(db.consents, ConsentKey(r), now)
  }

  predicate ValidRef(db: Database, ref: MessageRef) {
    ref.recipient < |db.recipients| && ref.rank < |db.recipients[ref.recipient].messages|
  }

  function MessageAt(db: Database, ref: MessageRef): Message
    requires ValidRef(db, ref)
  {
    db.recipients[ref.recipient].messages[ref.rank]
  }

  // ---- Draft ----

  predicate DraftAt(db: Database, version: nat) {
    db.broadcast.status.Draft? && db.broadcast.version == version
  }

  function NewRecipient(customer: CustomerId, phone: Phone): Recipient {
    Recipient(customer, phone, None, RecipientStatus.Draft, None, None, None, None, None, None, NO_EVIDENCE, [])
  }

  /** The customers kept by a selection, in request order: live, reachable, first of their phone. */
  function Selected(db: Database, ids: seq<CustomerId>): (rows: seq<Recipient>) {
    if ids == [] then []
    else
      var rows := Selected(db, ids[..|ids| - 1]);
      var id := ids[|ids| - 1];
      if id !in db.customers || db.customers[id].deleted || db.customers[id].phone.None? then rows
      else if exists i | 0 <= i < |rows| :: rows[i].phone == db.customers[id].phone.value then rows
      else rows + [NewRecipient(id, db.customers[id].phone.value)]
  }

  function ReplaceRecipients(db: Database, command: Uuid, ids: seq<CustomerId>, version: nat): Option<Database> {
    if ids == [] then None
    else if CommandExists(db, command) then Some(db)
    else if !DraftAt(db, version) then None
    else
      var rows := Selected(db, ids);
      Some(Audited(db.(recipients := rows,
                       broadcast := db.broadcast.(version := version + 1, validationToken := None)),
                   RecipientsReplaced, Some(command), |rows|))
  }

  function UpdateDraft(db: Database, draft: Digest.Draft, template: Payload.Template, version: nat): Option<Database> {
    if !DraftAt(db, version) then None
    else Some(Audited(db.(broadcast := db.broadcast.(version := version + 1, draft := draft, template := template,
                                                     validationToken := None)), DraftEdited, None, 0))
  }

  predicate AllEligible(db: Database, now: Time) {
    forall i | 0 <= i < |db.recipients| :: Eligible(db, db.recipients[i], now)
  }

  /** The consent event in force for each recipient, in recipient order. */
  function ConsentEvents(db: Database, now: Time): seq<nat>
    requires AllEligible(db, now)
  {
    seq(|db.recipients|, i requires 0 <= i < |db.recipients| =>
      Consent.Current(db.consents, ConsentKey(db.recipients[i]), now).value)
  }

  predicate ValidSnapshot(db: Database, checks: Checks, now: Time) {
    db.recipients != [] && checks.templateAvailable && checks.mediaAvailable && AllEligible(db, now)
  }

  function Selections(db: Database): seq<Digest.Selection> {
    seq(|db.recipients|, i requires 0 <= i < |db.recipients| =>
      Digest.Selection(db.recipients[i].customer, db.recipients[i].phone))
  }

  function DigestOf(db: Database, now: Time): string
    requires AllEligible(db, now)
  {
    Digest.Of(db.broadcast.id, db.broadcast.version, db.broadcast.draft, Selections(db), ConsentEvents(db, now))
  }

  function Validate(db: Database, version: nat, checks: Checks, token: Uuid, now: Time): Option<Database> {
    if !DraftAt(db, version) then None
    else if ValidSnapshot(db, checks, now) then
      var issued := db.broadcast.(validationToken := Some(token), validationDigest := DigestOf(db, now),
                                  validUntil := now + VALIDATION_TTL);
      Some(Audited(db.(broadcast := issued), Validated, None, |db.recipients|))
    else Some(Audited(db.(broadcast := db.broadcast.(validationToken := None)), Validated, None, |db.recipients|))
  }

  function ConfirmedRecipient(r: Recipient, consentEvent: nat): Recipient {
    r.(consentEvent := Some(consentEvent), status := RecipientStatus.Ready)
  }

  function Confirm(db: Database, command: Uuid, version: nat, token: Uuid, checks: Checks, actor: UserId, now: Time)
    : Option<Database>
  {
    if CommandExists(db, command) then Some(db)
    else if !DraftAt(db, version) || db.broadcast.validationToken != Some(token) || db.broadcast.validUntil < now
    then None
    else if !ValidSnapshot(db, checks, now) || DigestOf(db, now) != db.broadcast.validationDigest then None
    else
      var events := ConsentEvents(db, now);
      var rows :=
        seq(|db.recipients|, i requires 0 <= i < |db.recipients| => ConfirmedRecipient(db.recipients[i], events[i]));
      var confirmed := db.broadcast.(status := BroadcastStatus.Confirmed, confirmedBy := Some(actor),
                                     validationToken := None);
      Some(Audited(db.(recipients := rows, broadcast := confirmed), AuditKind.Confirmed, Some(command), |rows|))
  }

  function Launch(db: Database, command: Uuid, actor: UserId): Option<Database> {
    if CommandExists(db, command) then Some(db)
    else if !db.broadcast.status.Confirmed? then None
    else Some(Audited(db.(broadcast := db.broadcast.(status := BroadcastStatus.Processing, startedBy := Some(actor))),
                      Started, Some(command), 0))
  }

  // ---- process_batch, transaction by transaction ----

  /** Stale claims are taken back, except those another transaction holds locked. */
  function RecoverStaleClaims(db: Database, now: Time, locked: set<RecipientId>): Database {
    if !db.broadcast.status.Processing? then db
    else
      var threshold := now - db.settings.claimTimeout;
      var recovered := StaleIds(db.recipients, threshold, locked, |db.recipients|);
      db.(recipients := seq(|db.recipients|, i requires 0 <= i < |db.recipients| =>
            if i !in locked && Stale(db.recipients[i], threshold) then Recover(db.recipients[i]) else db.recipients[i]),
          audits := db.audits + Repeated(Audit(StaleClaimRecovered, None, 0), |recovered|))
  }

  function StaleIds(recipients: seq<Recipient>, threshold: Time, locked: set<RecipientId>, upTo: nat): seq<RecipientId>
    requires upTo <= |recipients|
  {
    if upTo == 0 then []
    else
      var before := StaleIds(recipients, threshold, locked, upTo - 1);
      if upTo - 1 !in locked && Stale(recipients[upTo - 1], threshold) then before + [upTo - 1] else before
  }

  function Repeated(a: Audit, count: nat): seq<Audit> {
    seq(count, _ => a)
  }

  /** The first `limit` ready recipients from `start` on, in id order. */
  function ReadyFrom(recipients: seq<Recipient>, start: nat, limit: nat, locked: set<RecipientId>)
    : (ids: seq<RecipientId>)
    requires start <= |recipients|
    ensures forall n | 0 <= n < |ids| :: start <= ids[n] < |recipients| && recipients[ids[n]].status.Ready?
    ensures forall m, n | 0 <= m < n < |ids| :: ids[m] < ids[n]
    ensures |ids| <= limit
    decreases |recipients| - start
  {
    if start == |recipients| || limit == 0 then []
    else if recipients[start].status.Ready? && start !in locked
    then [start] + ReadyFrom(recipients, start + 1, limit - 1, locked)
    else ReadyFrom(recipients, start + 1, limit, locked)
  }

  datatype Candidate = Candidate(recipient: RecipientId, clientId: Uuid)

  predicate IsCandidate(candidates: seq<Candidate>, id: RecipientId) {
    exists n | 0 <= n < |candidates| :: candidates[n].recipient == id
  }

  function ClientIdFor(candidates: seq<Candidate>, id: RecipientId): Uuid
    requires IsCandidate(candidates, id)
  {
    if candidates[|candidates| - 1].recipient == id then candidates[|candidates| - 1].clientId
    else
      assert forall n | 0 <= n < |candidates| - 1 :: candidates[..|candidates| - 1][n] == candidates[n];
      ClientIdFor(candidates[..|candidates| - 1], id)
  }

  /** Candidates that are still ready and unlocked, lowest ids first, at most one batch. */
  function Claimable(db: Database, candidates: seq<Candidate>, locked: set<RecipientId>): (ids: seq<RecipientId>)
    ensures forall n | 0 <= n < |ids| ::
              ids[n] < |db.recipients| && db.recipients[ids[n]].status.Ready? && IsCandidate(candidates, ids[n])
    ensures forall m, n | 0 <= m < n < |ids| :: ids[m] < ids[n]
  {
    var others := set id: RecipientId | id < |db.recipients| && !IsCandidate(candidates, id);
    var ids := ReadyFrom(db.recipients, 0, db.settings.batchSize, locked + others);
    ReadyAvoids(db.recipients, 0, db.settings.batchSize, locked + others);
    ids
  }

  lemma ReadyAvoids(recipients: seq<Recipient>, start: nat, limit: nat, locked: set<RecipientId>)
    requires start <= |recipients|
    ensures forall n | 0 <= n < |ReadyFrom(recipients, start, limit, locked)| ::
              ReadyFrom(recipients, start, limit, locked)[n] !in locked
    decreases |recipients| - start
  {
  }

  predicate ConversationAvailable(conversations: map<Phone, Conversation>, r: Recipient) {
    r.phone in conversations ==>
      conversations[r.phone].customer == Some(r.customer) && conversations[r.phone].resolved
  }

  /** Find or create the conversation of each claimed recipient; a conflict raises. */
  function LinkAll(conversations: map<Phone, Conversation>, recipients: seq<Recipient>, ids: seq<RecipientId>)
    : Option<map<Phone, Conversation>>
    requires forall n | 0 <= n < |ids| :: ids[n] < |recipients|
    decreases |ids|
  {
    if ids == [] then Some(conversations)
    else
      var r := recipients[ids[0]];
      if !ConversationAvailable(conversations, r) then None
      else
        var linked := if r.phone in conversations then conversations
                      else conversations[r.phone := Conversation(Some(r.customer), true, false)];
        LinkAll(linked, recipients, ids[1..])
  }

  function InitialMessage(db: Database, id: RecipientId, clientId: Uuid, sender: UserId, now: Time): Message
    requires id < |db.recipients|
  {
    NewMessage(Payload.StoredRow(db.broadcast.template, id, db.recipients[id].phone, clientId, sender, None), now)
  }

  function Sender(b: Broadcast): Option<UserId> {
    if b.startedBy.Some? then b.startedBy else b.confirmedBy
  }

  datatype ClaimResult = ClaimResult(db: Database, ids: seq<RecipientId>)

  function ClaimRecipients(db: Database, command: Uuid, candidates: seq<Candidate>, now: Time, locked: set<RecipientId>)
    : Option<ClaimResult>
  {
    if CommandExists(db, command) then Some(ClaimResult(db, []))
    else if !db.broadcast.status.Processing? then None
    else
      var ids := Claimable(db, candidates, locked);
      var conversations := LinkAll(db.conversations, db.recipients, ids);
      if conversations.None? || Sender(db.broadcast).None? then None
      else
        var rows := seq(|db.recipients|, i requires 0 <= i < |db.recipients| =>
          if i in ids
          then Claim(db.recipients[i],
                     InitialMessage(db, i, ClientIdFor(candidates, i), Sender(db.broadcast).value, now), command, now)
          else db.recipients[i]);
        Some(ClaimResult(Audited(db.(recipients := rows, conversations := conversations.value),
                                 Processed, Some(command), |ids|), ids))
  }

  datatype Plan = Plan(recipient: RecipientId, input: Payload.Input)

  datatype Prepared = Raises | Skip(db: Database) | Dispatch(db: Database, plan: Plan)

  /** _prepare_dispatch: block the recipient or build the plan for its pending message. */
  function PrepareDispatch(db: Database, id: RecipientId, templateAvailable: bool, now: Time): Prepared {
    if id >= |db.recipients| || !db.recipients[id].status.InProgress? then Skip(db)
    else
      var r := db.recipients[id];
      if !templateAvailable then Skip(BlockRecipient(db, id, TemplateUnavailable))
      else if !Eligible(db, r, now) then Skip(BlockRecipient(db, id, ConsentOrPhoneChanged))
      else if r.messages == [] || !Latest(r).dispatch.Pending? || r.conversation.None?
      then Skip(BlockRecipient(db, id, AttemptAlreadyExists))
      else if Sender(db.broadcast).None? then Raises
      else Dispatch(db, Plan(id, Payload.PlannedInput(db.broadcast.template, id, r.conversation.value,
                                                      Latest(r).row.clientId, Sender(db.broadcast).value,
                                                      Latest(r).row.retryOf)))
  }

  function BlockRecipient(db: Database, id: RecipientId, reason: BlockReason): Database
    requires id < |db.recipients|
  {
    Audited(WithRecipient(db, id, Block(db.recipients[id], reason)), AuditKind.Blocked, None, 0)
  }

  /**
   The message service's own preparation for a plan: `ref` is the stored message whose client
   id the plan carries. It raises when the conversation, the user or the payload is refused,
   and dispatches only a message that is still pending.
   */
  predicate Admits(db: Database, plan: Plan, ref: MessageRef) {
    var input := plan.input;
    && Payload.Normalize(input).Success?
    && input.conversation in db.conversations
    && var c := db.conversations[input.conversation];
    && !c.hidden && c.resolved && c.customer.Some?
    && c.customer.value in db.customers && !db.customers[c.customer.value].deleted
    && input.sentBy in db.activeUsers
    && ValidRef(db, ref)
    && MessageAt(db, ref).row.clientId == input.clientId
    && Payload.SamePayload(MessageAt(db, ref).row, Payload.Normalize(input).value)
  }

  /** The checks made under the consent lock when a dispatch starts. */
  predicate StartAllowed(db: Database, ref: MessageRef, now: Time)
    requires ValidRef(db, ref)
  {
    var r := db.recipients[ref.recipient];
    var conversation := MessageAt(db, ref).row.conversation;
    && OwnsPhone(db, r.customer, r.phone)
    && r.conversation == Some(conversation)
    && conversation in db.conversations && db.conversations[conversation].customer == Some(r.customer)
    && r.status.InProgress?
    && ref.rank == |r.messages| - 1
    && Consent.OptedIn(db.consents, ConsentKey(r), now)
  }

  datatype StartResult = NotStarted(db: Database) | Handed(db: Database)

  function StartDispatch(db: Database, ref: MessageRef, now: Time): StartResult
    requires ValidRef(db, ref)
  {
    if !StartAllowed(db, ref, now) then NotStarted(BlockRecipient(db, ref.recipient, ConsentOrPhoneChanged))
    else if !MessageAt(db, ref).dispatch.Pending? then NotStarted(db)
    else Handed(WithRecipient(db, ref.recipient, Start(db.recipients[ref.recipient], ref.rank)))
  }

  function ReconcileAnswer(db: Database, ref: MessageRef, answer: Answer, now: Time): Database
    requires ValidRef(db, ref)
  {
    WithRecipient(db, ref.recipient, Reconcile(db.recipients[ref.recipient], ref.rank, answer, now))
  }

  predicate Remaining(r: Recipient) {
    r.status.Ready? || r.status.InProgress?
  }

  function RemainingCount(recipients: seq<Recipient>): nat {
    if recipients == [] then 0
    else RemainingCount(recipients[..|recipients| - 1]) + (if Remaining(recipients[|recipients| - 1]) then 1 else 0)
  }

  function CompleteIfIdle(db: Database, now: Time): Database {
    if RemainingCount(db.recipients) != 0 then db
    else
      var first := if db.broadcast.firstCompletedAt.None? then Some(now) else db.broadcast.firstCompletedAt;
      Audited(db.(broadcast := db.broadcast.(status := BroadcastStatus.Completed, firstCompletedAt := first,
                                             lastCompletedAt := Some(now))), AuditKind.Completed, None, 0)
  }

  // ---- retry_failed ----

  /** One requested recipient and the moment its eligibility is judged. */
  datatype RetryRequest = RetryRequest(recipient: RecipientId, clientId: Uuid, judgedAt: Time)

  predicate Retryable(db: Database, request: RetryRequest) {
    request.recipient < |db.recipients|
    && var r := db.recipients[request.recipient];
    && r.status.Failed? && Eligible(db, r, request.judgedAt)
    && r.messages != [] && MessageFailed(Latest(r)) && r.conversation.Some?
  }

  function RetryOne(db: Database, request: RetryRequest, actor: UserId, now: Time): Database
    requires Retryable(db, request)
  {
    var r := db.recipients[request.recipient];
    var row := Payload.StoredRow(db.broadcast.template, request.recipient, r.conversation.value, request.clientId,
                                 actor, Some(|r.messages| - 1));
    WithRecipient(db, request.recipient, Retry(r, NewMessage(row, now)))
  }

  datatype Retried = Retried(db: Database, created: nat)

  /** Requests are served one by one; a repeated recipient is no longer failed the second time. */
  function RetryAll(db: Database, requests: seq<RetryRequest>, actor: UserId, now: Time): Retried {
    if requests == [] then Retried(db, 0)
    else
      var before := RetryAll(db, requests[..|requests| - 1], actor, now);
      var request := requests[|requests| - 1];
      if Retryable(before.db, request)
      then Retried(RetryOne(before.db, request, actor, now), before.created + 1)
      else before
  }

  function RetryFailed(db: Database, command: Uuid, requests: seq<RetryRequest>, actor: UserId, templateAvailable: bool,
                       now: Time): Option<Database> {
    if requests == [] then None
    else if CommandExists(db, command) then Some(db)
    else if !templateAvailable then None
    else
      var retried := RetryAll(db, requests, actor, now);
      var broadcast := if retried.created == 0 then retried.db.broadcast
                       else retried.db.broadcast.(status := BroadcastStatus.Processing);
      Some(Audited(retried.db.(broadcast := broadcast), RetryAuthorized, Some(command), retried.created))
  }

  // ---- Environment ----

  function DeliveryStatus(db: Database, ref: MessageRef, provider: ProviderState, evidence: Evidence): Database {
    if !ValidRef(db, ref) then db
    else WithRecipient(db, ref.recipient, Notify(db.recipients[ref.recipient], ref.rank, provider, evidence))
  }
}
