/**
 The tables of one broadcast as the services update them: recipient rows whose columns are
 assigned in place, and a store whose transactions loop over those rows. Every method is proved
 against the function on values that the protocol is built from. A transaction that raises writes
 nothing.
 */
module BroadcastStore {
  import opened Wrappers
  import opened BroadcastModel
  import opened BroadcastTransactions
  import opened SingleWorker
  import Consent
  import Payload
  import Digest

  // ---- The latest timestamp of a column ----

  function LatestOf(values: seq<Option<Time>>): Option<Time> {
    if values == [] then None else Later(LatestOf(values[..|values| - 1]), values[|values| - 1])
  }

  /** It is the maximum of the timestamps present, and absent only when all are. */
  lemma {:induction false} LatestIsMaximum(values: seq<Option<Time>>)
    ensures LatestOf(values).None? <==> forall i | 0 <= i < |values| :: values[i].None?
    ensures LatestOf(values).Some? ==>
              LatestOf(values) in values
              && forall i | 0 <= i < |values| && values[i].Some? :: values[i].value <= LatestOf(values).value
  {
    if values != [] {
      var before := values[..|values| - 1];
      LatestIsMaximum(before);
      assert forall i | 0 <= i < |before| :: before[i] == values[i];
    }
  }

  method LatestTimestamp(values: seq<Option<Time>>) returns (latest: Option<Time>)
    ensures latest == LatestOf(values)
  {
    latest := None;
    for i := 0 to |values|
      invariant latest == LatestOf(values[..i])
    {
      assert values[..i + 1][..i] == values[..i];
      latest := Later(latest, values[i]);
    }
    assert values[..|values|] == values;
  }

  function Column(messages: seq<Message>, f: Evidence -> Option<Time>): (values: seq<Option<Time>>) {
    seq(|messages|, i requires 0 <= i < |messages| => f(messages[i].evidence))
  }

  const ACCEPTED_AT: Evidence -> Option<Time> := (e: Evidence) => e.acceptedAt
  const SENT_AT: Evidence -> Option<Time> := (e: Evidence) => e.sentAt
  const DELIVERED_AT: Evidence -> Option<Time> := (e: Evidence) => e.deliveredAt
  const READ_AT: Evidence -> Option<Time> := (e: Evidence) => e.readAt
  const FAILED_AT: Evidence -> Option<Time> := (e: Evidence) => e.failedAt

  lemma {:induction false} EvidenceByColumn(messages: seq<Message>)
    ensures LatestEvidence(messages)
         == Evidence(LatestOf(Column(messages, ACCEPTED_AT)), LatestOf(Column(messages, SENT_AT)),
                     LatestOf(Column(messages, DELIVERED_AT)), LatestOf(Column(messages, READ_AT)),
                     LatestOf(Column(messages, FAILED_AT)))
  {
    if messages != [] {
      var before := messages[..|messages| - 1];
      EvidenceByColumn(before);
      ColumnPrefix(messages, ACCEPTED_AT);
      ColumnPrefix(messages, SENT_AT);
      ColumnPrefix(messages, DELIVERED_AT);
      ColumnPrefix(messages, READ_AT);
      ColumnPrefix(messages, FAILED_AT);
    }
  }

  lemma ColumnPrefix(messages: seq<Message>, f: Evidence -> Option<Time>)
    requires messages != []
    ensures Column(messages, f)[..|messages| - 1] == Column(messages[..|messages| - 1], f)
  {
  }

  // ---- A recipient row ----

  class RecipientRow {
    const customer: CustomerId
    const phone: Phone
    var consentEvent: Option<nat>
    var status: RecipientStatus
    var reason: Option<BlockReason>
    var conversation: Option<Phone>
    var claimToken: Option<Uuid>
    var claimedAt: Option<Time>
    var firstAttemptAt: Option<Time>
    var latestAttemptAt: Option<Time>
    var evidence: Evidence
    var messages: seq<Message>

    ghost function Value(): Recipient
      reads this
    {
      Recipient(customer, phone, consentEvent, status, reason, conversation, claimToken, claimedAt,
                firstAttemptAt, latestAttemptAt, evidence, messages)
    }

    constructor (customer: CustomerId, phone: Phone)
      ensures Value() == NewRecipient(customer, phone)
    {
      this.customer, this.phone := customer, phone;
      consentEvent, status, reason, conversation := None, RecipientStatus.Draft, None, None;
      claimToken, claimedAt, firstAttemptAt, latestAttemptAt := None, None, None, None;
      evidence, messages := NO_EVIDENCE, [];
    }

    method Recompute()
      modifies this
      ensures Value() == Project(old(Value()))
    {
      if messages == [] {
        return;
      }
      var latest := messages[|messages| - 1];
      firstAttemptAt := Some(messages[0].createdAt);
      latestAttemptAt := Some(latest.createdAt);
      evidence := AccumulateEvidence();
      if !(status.Blocked? && reason.Some? && latest.dispatch.Pending?) {
        status := StatusOf(claimToken, latest);
      }
    }

    method AccumulateEvidence() returns (latest: Evidence)
      ensures latest == LatestEvidence(messages)
    {
      var acceptedAt := LatestTimestamp(Column(messages, ACCEPTED_AT));
      var sentAt := LatestTimestamp(Column(messages, SENT_AT));
      var deliveredAt := LatestTimestamp(Column(messages, DELIVERED_AT));
      var readAt := LatestTimestamp(Column(messages, READ_AT));
      var failedAt := LatestTimestamp(Column(messages, FAILED_AT));
      EvidenceByColumn(messages);
      return Evidence(acceptedAt, sentAt, deliveredAt, readAt, failedAt);
    }

    /** Blocking drops the claim; a sound row with a message stays sound. */
    method BlockFor(because: BlockReason)
      modifies this
      ensures Value() == Block(old(Value()), because)
      ensures messages != [] && Sound(old(Value())) ==> Sound(Value())
    {
      if messages != [] && Sound(Value()) {
        BlockSound(Value(), because);
      }
      status, reason, claimToken, claimedAt := RecipientStatus.Blocked, Some(because), None, None;
    }

    method ClaimFor(initial: Message, command: Uuid, now: Time) returns (claimed: bool)
      modifies this
      ensures Value() == Claim(old(Value()), initial, command, now)
      ensures claimed <==> old(messages == [] || messages[|messages| - 1].dispatch.Pending?)
    {
      conversation := Some(phone);
      if messages == [] {
        messages := [initial];
      } else if !messages[|messages| - 1].dispatch.Pending? {
        BlockFor(AttemptAlreadyExists);
        return false;
      }
      status := RecipientStatus.InProgress;
      claimToken, claimedAt := Some(command), Some(now);
      Recompute();
      claimed := true;
    }

    method RecoverClaim()
      modifies this
      ensures Value() == Recover(old(Value()))
    {
      if messages == [] {
        status, claimToken, claimedAt := RecipientStatus.Ready, None, None;
        return;
      }
      var last := |messages| - 1;
      if messages[last].dispatch.Pending? {
        status, claimToken, claimedAt := RecipientStatus.Ready, None, None;
      } else if messages[last].dispatch.InProgress? {
        messages := messages[last := messages[last].(dispatch := DispatchState.Unknown)];
        claimToken, claimedAt := None, None;
      }
      Recompute();
    }

    method RecoverIfStale(threshold: Time) returns (stale: bool)
      modifies this
      ensures stale <==> BroadcastModel.Stale(old(Value()), threshold)
      ensures Value() == if stale then Recover(old(Value())) else old(Value())
    {
      stale := status.InProgress? && claimedAt.Some? && claimedAt.value < threshold;
      if stale {
        RecoverClaim();
      }
    }

    /** Handing over the pending message of a claimed row leaves it sound and in progress. */
    method StartMessage(rank: nat)
      requires rank < |messages|
      modifies this
      ensures Value() == BroadcastModel.Start(old(Value()), rank)
      ensures Sound(old(Value())) && old(status).InProgress? && rank == |old(messages)| - 1
              && old(messages[rank]).dispatch.Pending?
              ==> Sound(Value()) && status.InProgress?
    {
      if Sound(Value()) && status.InProgress? && rank == |messages| - 1 && messages[rank].dispatch.Pending? {
        StartSound(Value());
      }
      messages := messages[rank := messages[rank].(dispatch := DispatchState.InProgress)];
      Recompute();
    }

    method ReconcileMessage(rank: nat, answer: Answer, now: Time)
      requires rank < |messages|
      modifies this
      ensures Value() == Reconcile(old(Value()), rank, answer, now)
    {
      if messages[rank].dispatch.InProgress? {
        messages := messages[rank := Answered(messages[rank], answer, now)];
        Recompute();
      }
    }

    /** The next attempt of a failed row leaves it sound and ready. */
    method RetryWith(next: Message)
      modifies this
      ensures Value() == Retry(old(Value()), next)
      ensures Sound(old(Value())) && old(status).Failed? && next == NewMessage(next.row, next.createdAt)
              && next.row.retryOf == Some(|old(messages)| - 1)
              ==> Sound(Value()) && status.Ready?
    {
      if Sound(Value()) && status.Failed? && next == NewMessage(next.row, next.createdAt)
         && next.row.retryOf == Some(|messages| - 1) {
        RetrySound(Value(), next);
      }
      messages := messages + [next];
      reason, claimToken, claimedAt := None, None, None;
      Recompute();
    }
  }

  // ---- The store ----

  function CustomersOf(selected: seq<Digest.Selection>): seq<CustomerId> {
    seq(|selected|, n requires 0 <= n < |selected| => selected[n].customer)
  }

  ghost function Recipients(selected: seq<Digest.Selection>): seq<Recipient> {
    seq(|selected|, n requires 0 <= n < |selected| => NewRecipient(selected[n].customer, selected[n].phone))
  }

  predicate PhoneTaken(selected: seq<Digest.Selection>, phone: Phone) {
    exists n | 0 <= n < |selected| :: selected[n].phone == phone
  }

  ghost predicate Seen(phones: set<Phone>, selected: seq<Digest.Selection>) {
    forall phone :: phone in phones <==> PhoneTaken(selected, phone)
  }

  predicate Unavailable(customers: map<CustomerId, Customer>, id: CustomerId) {
    id !in customers || customers[id].deleted
  }

  predicate Reachable(customers: map<CustomerId, Customer>, id: CustomerId) {
    !Unavailable(customers, id) && customers[id].phone.Some?
  }

  /**
   The selection and the reported lists of the requested ids: the selected are those that the
   draft keeps, every request is in one list, and each list holds only the ids it is named for.
   */
  ghost predicate Split(db: Database, ids: seq<CustomerId>, selected: seq<Digest.Selection>,
                        duplicates: seq<CustomerId>, invalid: seq<CustomerId>, missingPhone: seq<CustomerId>)
  {
    Recipients(selected) == Selected(db, ids)
    && multiset(ids)
       == multiset(CustomersOf(selected)) + multiset(duplicates) + multiset(invalid) + multiset(missingPhone)
    && (forall id | id in invalid :: Unavailable(db.customers, id))
    && (forall id | id in missingPhone :: !Unavailable(db.customers, id) && db.customers[id].phone.None?)
    && Duplicates(db.customers, selected, duplicates)
    && (forall s | s in selected ::
          Reachable(db.customers, s.customer) && db.customers[s.customer].phone.value == s.phone)
  }

  predicate Duplicates(customers: map<CustomerId, Customer>, selected: seq<Digest.Selection>,
                       duplicates: seq<CustomerId>)
  {
    forall id | id in duplicates :: Reachable(customers, id) && PhoneTaken(selected, customers[id].phone.value)
  }

  lemma SplitStep(db: Database, ids: seq<CustomerId>, id: CustomerId, selected: seq<Digest.Selection>,
                  duplicates: seq<CustomerId>, invalid: seq<CustomerId>, missingPhone: seq<CustomerId>)
    requires Split(db, ids, selected, duplicates, invalid, missingPhone)
    ensures Unavailable(db.customers, id) ==>
              Split(db, ids + [id], selected, duplicates, invalid + [id], missingPhone)
    ensures !Unavailable(db.customers, id) && db.customers[id].phone.None? ==>
              Split(db, ids + [id], selected, duplicates, invalid, missingPhone + [id])
    ensures Reachable(db.customers, id) && PhoneTaken(selected, db.customers[id].phone.value) ==>
              Split(db, ids + [id], selected, duplicates + [id], invalid, missingPhone)
    ensures Reachable(db.customers, id) && !PhoneTaken(selected, db.customers[id].phone.value) ==>
              Split(db, ids + [id], selected + [Digest.Selection(id, db.customers[id].phone.value)],
                    duplicates, invalid, missingPhone)
  {
    SelectedStep(db, ids, id, selected);
    if Reachable(db.customers, id) && !PhoneTaken(selected, db.customers[id].phone.value) {
      SelectOne(db, ids, id, selected, duplicates, invalid, missingPhone);
    }
  }

  lemma SelectOne(db: Database, ids: seq<CustomerId>, id: CustomerId, selected: seq<Digest.Selection>,
                  duplicates: seq<CustomerId>, invalid: seq<CustomerId>, missingPhone: seq<CustomerId>)
    requires Split(db, ids, selected, duplicates, invalid, missingPhone)
    requires Reachable(db.customers, id) && !PhoneTaken(selected, db.customers[id].phone.value)
    ensures Split(db, ids + [id], selected + [Digest.Selection(id, db.customers[id].phone.value)],
                  duplicates, invalid, missingPhone)
  {
    SelectedStep(db, ids, id, selected);
    var one := Digest.Selection(id, db.customers[id].phone.value);
    assert CustomersOf(selected + [one]) == CustomersOf(selected) + [id];
    forall d | d in duplicates ensures PhoneTaken(selected + [one], db.customers[d].phone.value) {
      TakenStep(selected, one, db.customers[d].phone.value);
    }
  }

  /** The selection after one more request. */
  lemma SelectedStep(db: Database, ids: seq<CustomerId>, id: CustomerId, selected: seq<Digest.Selection>)
    requires Recipients(selected) == Selected(db, ids)
    ensures Selected(db, ids + [id])
         == if !Reachable(db.customers, id) || PhoneTaken(selected, db.customers[id].phone.value) then Selected(db, ids)
            else Recipients(selected + [Digest.Selection(id, db.customers[id].phone.value)])
  {
    assert (ids + [id])[..|ids|] == ids;
    var rows := Selected(db, ids);
    assert forall i | 0 <= i < |rows| :: rows[i].phone == selected[i].phone;
    if Reachable(db.customers, id) {
      var one := Digest.Selection(id, db.customers[id].phone.value);
      assert Recipients(selected + [one]) == rows + [NewRecipient(id, one.phone)];
    }
  }

  lemma TakenStep(selected: seq<Digest.Selection>, one: Digest.Selection, phone: Phone)
    ensures PhoneTaken(selected + [one], phone) <==> PhoneTaken(selected, phone) || phone == one.phone
  {
    var more := selected + [one];
    assert more[|selected|] == one;
    if PhoneTaken(selected, phone) {
      var n :| 0 <= n < |selected| && selected[n].phone == phone;
      assert more[n].phone == phone;
    }
  }

  lemma SeenStep(phones: set<Phone>, selected: seq<Digest.Selection>, one: Digest.Selection)
    requires Seen(phones, selected)
    ensures Seen(phones + {one.phone}, selected + [one])
  {
    forall p ensures PhoneTaken(selected + [one], p) <==> PhoneTaken(selected, p) || p == one.phone {
      TakenStep(selected, one, p);
    }
  }

  ghost function ClaimedValue(db: Database, id: RecipientId, candidates: seq<Candidate>, sender: UserId,
                              command: Uuid, now: Time): Recipient
    requires id < |db.recipients| && IsCandidate(candidates, id)
  {
    Claim(db.recipients[id], InitialMessage(db, id, ClientIdFor(candidates, id), sender, now), command, now)
  }

  ghost function RecoveredValue(r: Recipient, id: RecipientId, threshold: Time, locked: set<RecipientId>): Recipient {
    if id !in locked && BroadcastModel.Stale(r, threshold) then Recover(r) else r
  }

  /** One recipient further in the scan for ready ones. */
  lemma ReadyNext(recipients: seq<Recipient>, i: nat, limit: nat, locked: set<RecipientId>, taken: seq<RecipientId>)
    requires i < |recipients| && limit > 0
    ensures taken + ReadyFrom(recipients, i, limit, locked)
         == if recipients[i].status.Ready? && i !in locked
            then (taken + [i]) + ReadyFrom(recipients, i + 1, limit - 1, locked)
            else taken + ReadyFrom(recipients, i + 1, limit, locked)
  {
  }

  /** The query with its limit: stops once enough recipients are found. */
  method FirstWanted(wanted: seq<bool>, limit: nat, ghost recipients: seq<Recipient>, ghost avoided: set<RecipientId>)
    returns (ids: seq<RecipientId>)
    requires |wanted| == |recipients|
    requires forall i | 0 <= i < |wanted| :: wanted[i] == (recipients[i].status.Ready? && i !in avoided)
    ensures ids == ReadyFrom(recipients, 0, limit, avoided)
  {
    ids := [];
    var i: nat := 0;
    while i < |wanted| && |ids| < limit
      invariant i <= |wanted| && |ids| <= limit
      invariant ids + ReadyFrom(recipients, i, limit - |ids|, avoided) == ReadyFrom(recipients, 0, limit, avoided)
    {
      ReadyNext(recipients, i, limit - |ids|, avoided, ids);
      if wanted[i] {
        ids := ids + [i];
      }
      i := i + 1;
    }
    assert ids + [] == ids;
  }

  ghost function RecoveryAudits(recipients: seq<Recipient>, threshold: Time, locked: set<RecipientId>, upTo: nat)
    : seq<Audit>
    requires upTo <= |recipients|
  {
    Repeated(Audit(StaleClaimRecovered, None, 0), |StaleIds(recipients, threshold, locked, upTo)|)
  }

  lemma RecoveryAuditsNext(recipients: seq<Recipient>, threshold: Time, locked: set<RecipientId>, i: nat)
    requires i < |recipients|
    ensures RecoveryAudits(recipients, threshold, locked, i + 1)
         == RecoveryAudits(recipients, threshold, locked, i)
            + (if i !in locked && BroadcastModel.Stale(recipients[i], threshold)
               then [Audit(StaleClaimRecovered, None, 0)] else [])
  {
  }

  lemma ClaimedDatabase(db: Database, command: Uuid, candidates: seq<Candidate>, now: Time, locked: set<RecipientId>,
                        claimed: seq<Recipient>)
    requires !CommandExists(db, command) && db.broadcast.status.Processing? && Sender(db.broadcast).Some?
    requires LinkAll(db.conversations, db.recipients, Claimable(db, candidates, locked)).Some?
    requires |claimed| == |db.recipients|
    requires forall i | 0 <= i < |claimed| ::
               claimed[i] == if i in Claimable(db, candidates, locked)
                             then ClaimedValue(db, i, candidates, Sender(db.broadcast).value, command, now)
                             else db.recipients[i]
    ensures var ids := Claimable(db, candidates, locked);
            var linked := LinkAll(db.conversations, db.recipients, ids).value;
            ClaimRecipients(db, command, candidates, now, locked)
            == Some(ClaimResult(Audited(db.(recipients := claimed, conversations := linked), Processed, Some(command),
                                        |ids|), ids))
  {
    assert ClaimRecipients(db, command, candidates, now, locked).value.db.recipients == claimed;
  }

  class Store {
    const settings: Settings
    var broadcast: Broadcast
    var rows: seq<RecipientRow>
    var audits: seq<Audit>
    var consents: seq<Consent.Event>
    var customers: map<CustomerId, Customer>
    var conversations: map<Phone, Conversation>
    var activeUsers: set<UserId>

    /** A fresh draft in a given world. */
    constructor (settings: Settings, draft: Broadcast, consents: seq<Consent.Event>,
                 customers: map<CustomerId, Customer>, conversations: map<Phone, Conversation>,
                 activeUsers: set<UserId>)
      ensures Valid()
      ensures Db() == Database(settings, draft, [], [], consents, customers, conversations, activeUsers)
    {
      this.settings, broadcast, rows, audits := settings, draft, [], [];
      this.consents, this.customers, this.conversations, this.activeUsers := consents, customers, conversations,
      activeUsers;
      new;
      assert Values() == [];
    }

    ghost predicate Valid()
      reads this
    {
      forall i, j | 0 <= i < j < |rows| :: rows[i] != rows[j]
    }

    ghost function Values(): seq<Recipient>
      reads this, rows
    {
      seq(|rows|, i requires 0 <= i < |rows| reads this, rows => rows[i].Value())
    }

    ghost function Db(): Database
      reads this, rows
    {
      Database(settings, broadcast, Values(), audits, consents, customers, conversations, activeUsers)
    }

    method Record(kind: AuditKind, command: Option<Uuid>, affected: nat)
      modifies this`audits
      ensures audits == old(audits) + [Audit(kind, command, affected)]
    {
      audits := audits + [Audit(kind, command, affected)];
    }

    method Replayed(command: Uuid) returns (found: bool)
      ensures found <==> CommandExists(Db(), command)
    {
      for i := 0 to |audits|
        invariant forall j | 0 <= j < i :: audits[j].command != Some(command)
      {
        if audits[i].command == Some(command) {
          return true;
        }
      }
      return false;
    }

    /**
     Selects customers in request order. Every requested id is in exactly one list as often as it
     was requested: unknown and deleted customers, customers without a phone, those whose phone an
     earlier one was selected for, and the selected.
     */
    method SelectCustomers(ids: seq<CustomerId>)
      returns (selected: seq<Digest.Selection>, duplicates: seq<CustomerId>, invalid: seq<CustomerId>,
               missingPhone: seq<CustomerId>)
      ensures Split(Db(), ids, selected, duplicates, invalid, missingPhone)
    {
      selected, duplicates, invalid, missingPhone := [], [], [], [];
      var seenPhones: set<Phone> := {};
      for n := 0 to |ids|
        invariant Seen(seenPhones, selected)
        invariant Split(Db(), ids[..n], selected, duplicates, invalid, missingPhone)
      {
        var id := ids[n];
        assert ids[..n + 1] == ids[..n] + [id];
        SplitStep(Db(), ids[..n], id, selected, duplicates, invalid, missingPhone);
        if id !in customers || customers[id].deleted {
          invalid := invalid + [id];
        } else if customers[id].phone.None? {
          missingPhone := missingPhone + [id];
        } else {
          var phone := customers[id].phone.value;
          if phone in seenPhones {
            duplicates := duplicates + [id];
          } else {
            SeenStep(seenPhones, selected, Digest.Selection(id, phone));
            seenPhones := seenPhones + {phone};
            selected := selected + [Digest.Selection(id, phone)];
          }
        }
      }
      assert ids[..|ids|] == ids;
    }

    method ReplaceSelection(command: Uuid, ids: seq<CustomerId>, version: nat) returns (ok: bool)
      requires Valid()
      modifies this
      ensures Valid() && customers == old(customers)
      ensures match ReplaceRecipients(old(Db()), command, ids, version)
              case Some(after) => ok && Db() == after
              case None => !ok && Db() == old(Db())
    {
      if ids == [] {
        return false;
      }
      var replayed := Replayed(command);
      if replayed {
        return true;
      }
      if !broadcast.status.Draft? || broadcast.version != version {
        return false;
      }
      var selected, duplicates, invalid, missingPhone := SelectCustomers(ids);
      rows := NewRows(selected);
      broadcast := broadcast.(version := broadcast.version + 1, validationToken := None);
      Record(RecipientsReplaced, Some(command), |selected|);
      assert Values() == Selected(old(Db()), ids);
      return true;
    }

    method NewRows(selected: seq<Digest.Selection>) returns (replacement: seq<RecipientRow>)
      ensures |replacement| == |selected| && fresh(set r | r in replacement)
      ensures forall j | 0 <= j < |selected| :: replacement[j].Value() == Recipients(selected)[j]
      ensures forall j, k | 0 <= j < k < |selected| :: replacement[j] != replacement[k]
    {
      replacement := [];
      for i := 0 to |selected|
        invariant |replacement| == i && fresh(set r | r in replacement)
        invariant forall j | 0 <= j < i :: replacement[j].Value() == Recipients(selected)[j]
        invariant forall j, k | 0 <= j < k < i :: replacement[j] != replacement[k]
      {
        var row := new RecipientRow(selected[i].customer, selected[i].phone);
        replacement := replacement + [row];
      }
    }

    method ConfirmSelection(command: Uuid, version: nat, token: Uuid, checks: Checks, actor: UserId, now: Time)
      returns (ok: bool)
      requires Valid()
      modifies this, rows
      ensures Valid() && rows == old(rows)
      ensures match Confirm(old(Db()), command, version, token, checks, actor, now)
              case Some(after) => ok && Db() == after
              case None => !ok && Db() == old(Db())
    {
      var replayed := Replayed(command);
      if replayed {
        return true;
      }
      if !broadcast.status.Draft? || broadcast.version != version
         || broadcast.validationToken != Some(token) || broadcast.validUntil < now {
        return false;
      }
      var eligible, events := EligibleEvents(now);
      if rows == [] || !checks.templateAvailable || !checks.mediaAvailable || !eligible {
        return false;
      }
      var digest := CurrentDigest(events, now);
      if digest != broadcast.validationDigest {
        return false;
      }
      WriteConfirmation(command, version, token, checks, actor, now, events);
      return true;
    }

    method WriteConfirmation(command: Uuid, ghost version: nat, ghost token: Uuid, ghost checks: Checks, actor: UserId,
                             ghost now: Time, events: seq<nat>)
      requires Valid() && AllEligible(Db(), now) && events == ConsentEvents(Db(), now)
      requires !CommandExists(Db(), command) && DraftAt(Db(), version)
      requires broadcast.validationToken == Some(token) && now <= broadcast.validUntil
      requires ValidSnapshot(Db(), checks, now) && DigestOf(Db(), now) == broadcast.validationDigest
      modifies this, rows
      ensures rows == old(rows)
      ensures Confirm(old(Db()), command, version, token, checks, actor, now) == Some(Db())
    {
      ghost var confirmed := Confirm(Db(), command, version, token, checks, actor, now).value;
      ConfirmRows(events);
      assert Values() == confirmed.recipients;
      broadcast := broadcast.(status := BroadcastStatus.Confirmed, confirmedBy := Some(actor), validationToken := None);
      Record(AuditKind.Confirmed, Some(command), |rows|);
      assert Values() == confirmed.recipients;
    }

    method ConfirmRows(events: seq<nat>)
      requires Valid() && |events| == |rows|
      modifies rows
      ensures |Values()| == |events|
      ensures forall i | 0 <= i < |rows| :: Values()[i] == ConfirmedRecipient(old(Values())[i], events[i])
    {
      for i := 0 to |rows|
        invariant forall j | 0 <= j < i :: rows[j].Value() == ConfirmedRecipient(old(Values())[j], events[j])
        invariant forall j | i <= j < |rows| :: rows[j].Value() == old(Values())[j]
      {
        rows[i].consentEvent := Some(events[i]);
        rows[i].status := RecipientStatus.Ready;
      }
    }

    /** The consent event of every recipient, unless one of them is not eligible. */
    method EligibleEvents(now: Time) returns (all: bool, events: seq<nat>)
      ensures all <==> AllEligible(Db(), now)
      ensures all ==> events == ConsentEvents(Db(), now)
    {
      all, events := true, [];
      for i := 0 to |rows|
        invariant all <==> forall j | 0 <= j < i :: Eligible(Db(), Values()[j], now)
        invariant all ==> |events| == i
        invariant all ==> forall j | 0 <= j < i ::
                            Some(events[j]) == Consent.Current(consents, ConsentKey(Values()[j]), now)
      {
        var row := rows[i];
        assert Values()[i] == row.Value();
        var key := Consent.Key(row.customer, row.phone);
        var current := Consent.Current(consents, key, now);
        if row.customer !in customers || customers[row.customer].deleted
           || customers[row.customer].phone != Some(row.phone) {
          all := false;
        } else if current.None? || !consents[current.value].decision.OptIn? {
          all := false;
        } else {
          events := events + [current.value];
        }
      }
    }

    method CurrentDigest(events: seq<nat>, ghost now: Time) returns (digest: string)
      requires AllEligible(Db(), now) && events == ConsentEvents(Db(), now)
      ensures digest == DigestOf(Db(), now)
    {
      var selections := seq(|rows|, i requires 0 <= i < |rows| reads this, rows =>
        Digest.Selection(rows[i].customer, rows[i].phone));
      digest := Digest.Of(broadcast.id, broadcast.version, broadcast.draft, selections, events);
      assert selections == Selections(Db());
    }

    /** Takes back every stale claim that no other transaction holds locked. */
    method RecoverClaims(now: Time, locked: set<RecipientId>)
      requires Valid()
      modifies this`audits, rows
      ensures Db() == RecoverStaleClaims(old(Db()), now, locked)
    {
      if !broadcast.status.Processing? {
        return;
      }
      RecoverRows(now - settings.claimTimeout, locked);
      assert Values() == RecoverStaleClaims(old(Db()), now, locked).recipients;
    }

    method RecoverRows(threshold: Time, locked: set<RecipientId>)
      requires Valid()
      modifies this`audits, rows
      ensures |Values()| == |old(Values())|
      ensures forall j | 0 <= j < |rows| :: Values()[j] == RecoveredValue(old(Values())[j], j, threshold, locked)
      ensures audits == old(audits) + RecoveryAudits(old(Values()), threshold, locked, |rows|)
    {
      ghost var was := Values();
      for i := 0 to |rows|
        invariant forall j | 0 <= j < |rows| ::
                    rows[j].Value() == if j < i then RecoveredValue(was[j], j, threshold, locked) else was[j]
        invariant audits == old(audits) + RecoveryAudits(was, threshold, locked, i)
      {
        RecoveryAuditsNext(was, threshold, locked, i);
        var stale := RecoverRow(i, threshold, locked);
      }
    }

    method RecoverRow(i: RecipientId, threshold: Time, locked: set<RecipientId>) returns (stale: bool)
      requires Valid() && i < |rows|
      modifies this`audits, rows[i]
      ensures forall j | 0 <= j < |rows| && j != i :: rows[j].Value() == old(rows[j].Value())
      ensures stale <==> i !in locked && BroadcastModel.Stale(old(rows[i].Value()), threshold)
      ensures rows[i].Value() == RecoveredValue(old(rows[i].Value()), i, threshold, locked)
      ensures audits == old(audits) + (if stale then [Audit(StaleClaimRecovered, None, 0)] else [])
    {
      if i in locked {
        return false;
      }
      stale := rows[i].RecoverIfStale(threshold);
      if stale {
        Record(StaleClaimRecovered, None, 0);
      }
    }

    /** Finds or creates the conversation of every recipient about to be claimed. */
    method LinkConversations(ids: seq<RecipientId>) returns (linked: Option<map<Phone, Conversation>>)
      requires forall n | 0 <= n < |ids| :: ids[n] < |rows|
      ensures linked == LinkAll(conversations, Values(), ids)
    {
      var updated := conversations;
      for n := 0 to |ids|
        invariant LinkAll(conversations, Values(), ids) == LinkAll(updated, Values(), ids[n..])
      {
        var row := rows[ids[n]];
        assert ids[n..][0] == ids[n] && ids[n..][1..] == ids[n + 1..];
        assert Values()[ids[n]] == row.Value();
        if row.phone !in updated {
          updated := updated[row.phone := Conversation(Some(row.customer), true, false)];
        } else if updated[row.phone].customer != Some(row.customer) || !updated[row.phone].resolved {
          return None;
        }
      }
      return Some(updated);
    }

    /** Claims the recipients of one batch, and answers which; `None` when it raises. */
    method ClaimBatch(command: Uuid, candidates: seq<Candidate>, now: Time, locked: set<RecipientId>)
      returns (claimed: Option<seq<RecipientId>>)
      requires Valid()
      modifies this, rows
      ensures Valid() && rows == old(rows)
      ensures match ClaimRecipients(old(Db()), command, candidates, now, locked)
              case Some(result) => claimed == Some(result.ids) && Db() == result.db
              case None => claimed.None? && Db() == old(Db())
    {
      var replayed := Replayed(command);
      if replayed {
        return Some([]);
      }
      if !broadcast.status.Processing? {
        return None;
      }
      var ids := ReadyBatch(candidates, locked);
      var linked := LinkConversations(ids);
      if linked.None? || Sender(broadcast).None? {
        return None;
      }
      ClaimLinked(ids, linked.value, command, candidates, now, locked);
      return Some(ids);
    }

    method ClaimLinked(ids: seq<RecipientId>, linked: map<Phone, Conversation>, command: Uuid,
                       candidates: seq<Candidate>, now: Time, ghost locked: set<RecipientId>)
      requires Valid() && !CommandExists(Db(), command) && broadcast.status.Processing? && Sender(broadcast).Some?
      requires ids == Claimable(Db(), candidates, locked)
      requires LinkAll(conversations, Values(), ids) == Some(linked)
      modifies this, rows
      ensures rows == old(rows)
      ensures ClaimRecipients(old(Db()), command, candidates, now, locked) == Some(ClaimResult(Db(), ids))
    {
      ghost var was := Db();
      ClaimRows(ids, candidates, Sender(broadcast).value, command, now);
      ghost var claimed := Values();
      ClaimedDatabase(was, command, candidates, now, locked, claimed);
      RecordClaim(linked, command, |ids|, claimed);
    }

    method RecordClaim(linked: map<Phone, Conversation>, command: Uuid, affected: nat, ghost claimed: seq<Recipient>)
      requires Values() == claimed
      modifies this`conversations, this`audits
      ensures Db()
              == Audited(old(Db()).(recipients := claimed, conversations := linked), Processed, Some(command), affected)
    {
      conversations := linked;
      Record(Processed, Some(command), affected);
      assert Values() == claimed;
    }

    method ClaimRows(ids: seq<RecipientId>, candidates: seq<Candidate>, sender: UserId, command: Uuid, now: Time)
      requires Valid()
      requires forall n | 0 <= n < |ids| :: ids[n] < |rows| && IsCandidate(candidates, ids[n])
      requires forall m, n | 0 <= m < n < |ids| :: ids[m] < ids[n]
      modifies rows
      ensures |Values()| == |old(Values())|
      ensures forall i | 0 <= i < |rows| ::
                Values()[i] == if i in ids then ClaimedValue(old(Db()), i, candidates, sender, command, now)
                                   else old(Values())[i]
    {
      ghost var was := Db();
      for n := 0 to |ids|
        invariant forall i | 0 <= i < |rows| ::
                    rows[i].Value() == if i in ids[..n] then ClaimedValue(was, i, candidates, sender, command, now)
                                       else was.recipients[i]
      {
        var id := ids[n];
        assert id !in ids[..n];
        var row := rows[id];
        assert was.recipients[id] == row.Value();
        var initial := NewMessage(Payload.StoredRow(broadcast.template, id, row.phone, ClientIdFor(candidates, id),
                                                    sender, None), now);
        var kept := row.ClaimFor(initial, command, now);
        assert ids[..n + 1] == ids[..n] + [id];
      }
      assert ids[..|ids|] == ids;
    }

    /** The lowest ready, unlocked candidates, at most one batch of them. */
    method ReadyBatch(candidates: seq<Candidate>, locked: set<RecipientId>) returns (ids: seq<RecipientId>)
      ensures ids == Claimable(Db(), candidates, locked)
    {
      var others := set id: RecipientId | id < |rows| && !IsCandidate(candidates, id);
      ids := ScanReady(settings.batchSize, locked + others);
    }

    /** The first `limit` ready recipients in id order, without the avoided ones. */
    method ScanReady(limit: nat, avoided: set<RecipientId>) returns (ids: seq<RecipientId>)
      ensures ids == ReadyFrom(Values(), 0, limit, avoided)
    {
      var wanted: seq<bool> := [];
      for i := 0 to |rows|
        invariant |wanted| == i
        invariant forall j | 0 <= j < i :: wanted[j] == (Values()[j].status.Ready? && j !in avoided)
      {
        assert Values()[i] == rows[i].Value();
        wanted := wanted + [rows[i].status.Ready? && i !in avoided];
      }
      ids := FirstWanted(wanted, limit, Values(), avoided);
    }

    method BlockRow(id: RecipientId, reason: BlockReason)
      requires Valid() && id < |rows|
      modifies this`audits, rows[id]
      ensures Db() == BlockRecipient(old(Db()), id, reason)
    {
      rows[id].BlockFor(reason);
      Record(AuditKind.Blocked, None, 0);
      assert Values() == old(Values())[id := Block(old(rows[id].Value()), reason)];
    }

    method RowIsEligible(id: RecipientId, now: Time) returns (eligible: bool)
      requires id < |rows|
      ensures eligible <==> Eligible(Db(), Values()[id], now)
    {
      var row := rows[id];
      if row.customer !in customers || customers[row.customer].deleted
         || customers[row.customer].phone != Some(row.phone) {
        return false;
      }
      var current := Consent.Current(consents, Consent.Key(row.customer, row.phone), now);
      return current.Some? && consents[current.value].decision.OptIn?;
    }

    /** Blocks the recipient or builds the plan for its pending message. */
    method BuildPlan(id: RecipientId, templateAvailable: bool, now: Time) returns (ok: bool, plan: Option<Plan>)
      requires Valid()
      modifies this`audits, rows
      ensures match PrepareDispatch(old(Db()), id, templateAvailable, now)
              case Raises => !ok && Db() == old(Db())
              case Skip(after) => ok && plan.None? && Db() == after
              case Dispatch(after, p) => ok && plan == Some(p) && Db() == after
    {
      if id >= |rows| || !rows[id].status.InProgress? {
        return true, None;
      }
      var row := rows[id];
      assert Values()[id] == row.Value();
      if !templateAvailable {
        BlockRow(id, TemplateUnavailable);
        return true, None;
      }
      var eligible := RowIsEligible(id, now);
      if !eligible {
        BlockRow(id, ConsentOrPhoneChanged);
        return true, None;
      }
      if row.messages == [] || !row.messages[|row.messages| - 1].dispatch.Pending? || row.conversation.None? {
        BlockRow(id, AttemptAlreadyExists);
        return true, None;
      }
      var existing := row.messages[|row.messages| - 1];
      if Sender(broadcast).None? {
        return false, None;
      }
      return true,
             Some(Plan(id, Payload.PlannedInput(broadcast.template, id, row.conversation.value, existing.row.clientId,
                                                Sender(broadcast).value, existing.row.retryOf)));
    }

    /** The step that hands a message over, or blocks its recipient. */
    method StartRow(ref: MessageRef, now: Time) returns (handed: bool)
      requires Valid() && ValidRef(Db(), ref)
      modifies this`audits, rows
      ensures match StartDispatch(old(Db()), ref, now)
              case Handed(after) => handed && Db() == after
              case NotStarted(after) => !handed && Db() == after
    {
      var row := rows[ref.recipient];
      assert Values()[ref.recipient] == row.Value();
      var message := row.messages[ref.rank];
      var conversation := message.row.conversation;
      var eligible := RowIsEligible(ref.recipient, now);
      if !eligible || row.conversation != Some(conversation)
         || conversation !in conversations || conversations[conversation].customer != Some(row.customer)
         || !row.status.InProgress? || ref.rank != |row.messages| - 1 {
        BlockRow(ref.recipient, ConsentOrPhoneChanged);
        return false;
      }
      if !message.dispatch.Pending? {
        return false;
      }
      row.StartMessage(ref.rank);
      assert Values() == old(Values())[ref.recipient := BroadcastModel.Start(old(row.Value()), ref.rank)];
      return true;
    }

    method ReconcileRow(ref: MessageRef, answer: Answer, now: Time)
      requires Valid() && ValidRef(Db(), ref)
      modifies rows
      ensures Db() == ReconcileAnswer(old(Db()), ref, answer, now)
    {
      var row := rows[ref.recipient];
      assert Values()[ref.recipient] == row.Value();
      row.ReconcileMessage(ref.rank, answer, now);
      assert Values() == old(Values())[ref.recipient := Reconcile(old(row.Value()), ref.rank, answer, now)];
    }

    method CountRemaining() returns (count: nat)
      ensures count == RemainingCount(Values())
    {
      count := 0;
      for i := 0 to |rows|
        invariant count == RemainingCount(Values()[..i])
      {
        assert Values()[..i + 1][..i] == Values()[..i];
        assert Values()[i] == rows[i].Value();
        if rows[i].status.Ready? || rows[i].status.InProgress? {
          count := count + 1;
        }
      }
      assert Values()[..|rows|] == Values();
    }

    method Complete(now: Time)
      modifies this`broadcast, this`audits
      ensures Db() == CompleteIfIdle(old(Db()), now)
    {
      var remaining := CountRemaining();
      if remaining != 0 {
        return;
      }
      broadcast := broadcast.(status := BroadcastStatus.Completed);
      if broadcast.firstCompletedAt.None? {
        broadcast := broadcast.(firstCompletedAt := Some(now));
      }
      broadcast := broadcast.(lastCompletedAt := Some(now));
      Record(AuditKind.Completed, None, 0);
    }

    /** Serves the retry requests one by one. */
    method RetryRows(command: Uuid, requests: seq<RetryRequest>, actor: UserId, templateAvailable: bool, now: Time)
      returns (ok: bool)
      requires Valid()
      modifies this, rows
      ensures Valid() && rows == old(rows)
      ensures match RetryFailed(old(Db()), command, requests, actor, templateAvailable, now)
              case Some(after) => ok && Db() == after
              case None => !ok && Db() == old(Db())
    {
      if requests == [] {
        return false;
      }
      var replayed := Replayed(command);
      if replayed {
        return true;
      }
      if !templateAvailable {
        return false;
      }
      var created := ServeAll(requests, actor, now);
      WriteRetry(command, created);
      return true;
    }

    method ServeAll(requests: seq<RetryRequest>, actor: UserId, now: Time) returns (created: nat)
      requires Valid()
      modifies rows
      ensures RetryAll(old(Db()), requests, actor, now) == Retried(Db(), created)
    {
      created := 0;
      for n := 0 to |requests|
        invariant RetryAll(old(Db()), requests[..n], actor, now) == Retried(Db(), created)
      {
        assert requests[..n + 1][..n] == requests[..n];
        var served := ServeRetry(requests[n], actor, now);
        if served {
          created := created + 1;
        }
      }
      assert requests[..|requests|] == requests;
    }

    method WriteRetry(command: Uuid, created: nat)
      modifies this`broadcast, this`audits
      ensures Db() == Audited(old(Db()).(broadcast := if created == 0 then old(broadcast)
                                                      else old(broadcast).(status := BroadcastStatus.Processing)),
                              RetryAuthorized, Some(command), created)
    {
      ghost var was := Values();
      if created > 0 {
        broadcast := broadcast.(status := BroadcastStatus.Processing);
      }
      Record(RetryAuthorized, Some(command), created);
      assert Values() == was;
    }

    method ServeRetry(request: RetryRequest, actor: UserId, now: Time) returns (served: bool)
      requires Valid()
      modifies rows
      ensures served <==> Retryable(old(Db()), request)
      ensures Db() == if served then RetryOne(old(Db()), request, actor, now) else old(Db())
    {
      if request.recipient >= |rows| {
        return false;
      }
      var row := rows[request.recipient];
      assert Values()[request.recipient] == row.Value();
      var eligible := RowIsEligible(request.recipient, request.judgedAt);
      if !row.status.Failed? || !eligible || row.messages == [] || row.conversation.None? {
        return false;
      }
      var previous := |row.messages| - 1;
      if !MessageFailed(row.messages[previous]) {
        return false;
      }
      row.RetryWith(NewMessage(Payload.StoredRow(broadcast.template, request.recipient, row.conversation.value,
                                                 request.clientId, actor, Some(previous)), now));
      assert Values() == RetryOne(old(Db()), request, actor, now).recipients;
      return true;
    }

    // ---- One process_batch call of a worker that runs alone ----

    method DispatchRow(id: RecipientId, call: Call) returns (ok: bool)
      requires Valid()
      modifies this`audits, rows
      ensures ok <==> DispatchOne(old(Db()), id, call).Some?
      ensures ok ==> DispatchOne(old(Db()), id, call) == Some(Db())
    {
      var prepared, plan := BuildPlan(id, call.templateAvailable, call.now);
      if !prepared || plan.None? {
        return prepared;
      }
      assert Values()[id] == rows[id].Value();
      var ref := MessageRef(id, |rows[id].messages| - 1);
      ok := SendPlan(plan.value, ref, call);
    }

    /** What the message service does with a plan for a pending message. */
    method SendPlan(plan: Plan, ref: MessageRef, call: Call) returns (ok: bool)
      requires Valid() && ValidRef(Db(), ref)
      modifies this`audits, rows
      ensures ok <==> Admits(old(Db()), plan, ref)
      ensures !ok ==> Db() == old(Db())
      ensures ok ==> match StartDispatch(old(Db()), ref, call.startedAt)
                     case NotStarted(blocked) => Db() == blocked
                     case Handed(started) =>
                       ValidRef(started, ref)
                       && Db() == ReconcileAnswer(started, ref, call.answers(ref.recipient), call.now)
    {
      ok := Admit(plan, ref);
      if ok {
        var handed := StartRow(ref, call.startedAt);
        if handed {
          ReconcileRow(ref, call.answers(ref.recipient), call.now);
        }
      }
    }

    method Admit(plan: Plan, ref: MessageRef) returns (admitted: bool)
      requires ValidRef(Db(), ref)
      ensures admitted <==> Admits(Db(), plan, ref)
    {
      var row := rows[ref.recipient];
      assert Values()[ref.recipient] == row.Value();
      var input := plan.input;
      var normalized := Payload.Normalize(input);
      if normalized.Failure? || input.conversation !in conversations {
        return false;
      }
      var conversation := conversations[input.conversation];
      if conversation.hidden || !conversation.resolved || conversation.customer.None? {
        return false;
      }
      var customer := conversation.customer.value;
      if customer !in customers || customers[customer].deleted || input.sentBy !in activeUsers {
        return false;
      }
      var stored := row.messages[ref.rank].row;
      return stored.clientId == input.clientId && Payload.SamePayload(stored, normalized.value);
    }

    method ReadCandidates(clientIds: seq<Uuid>) returns (candidates: Option<seq<Candidate>>)
      ensures var ready := ReadyFrom(Values(), 0, 2 * settings.batchSize, {});
              if |ready| == |clientIds| then candidates == Some(Candidates(Db(), clientIds)) else candidates.None?
    {
      var ready := ScanReady(2 * settings.batchSize, {});
      if |ready| != |clientIds| {
        return None;
      }
      return Some(seq(|ready|, n requires 0 <= n < |ready| => Candidate(ready[n], clientIds[n])));
    }

    method DispatchRows(ids: seq<RecipientId>, call: Call) returns (ok: bool)
      requires Valid()
      modifies this`audits, rows
      ensures ok <==> DispatchAll(old(Db()), ids, call).Some?
      ensures ok ==> DispatchAll(old(Db()), ids, call) == Some(Db())
    {
      for n := 0 to |ids|
        invariant DispatchAll(old(Db()), ids, call) == DispatchAll(Db(), ids[n..], call)
      {
        assert ids[n..][0] == ids[n] && ids[n..][1..] == ids[n + 1..];
        var sent := DispatchRow(ids[n], call);
        if !sent {
          return false;
        }
      }
      return true;
    }

    /** `call` describes the tables the broadcast does not own, as they stand in this store. */
    method Process(call: Call) returns (ok: bool)
      requires Valid() && InWorld(Db(), call) == Db()
      modifies this, rows
      ensures Valid() && rows == old(rows)
      ensures ok <==> ProcessBatch(old(Db()), call).Some?
      ensures ok ==> ProcessBatch(old(Db()), call) == Some(Db())
    {
      RecoverClaims(call.now, {});
      ok := ClaimAndDispatch(call);
    }

    /** The call after stale claims were recovered. */
    method ClaimAndDispatch(call: Call) returns (ok: bool)
      requires Valid()
      modifies this, rows
      ensures Valid() && rows == old(rows)
      ensures ok <==> AfterRecovery(old(Db()), call).Some?
      ensures ok ==> AfterRecovery(old(Db()), call) == Some(Db())
    {
      var candidates := ReadCandidates(call.clientIds);
      if candidates.None? {
        return false;
      }
      var replayed := Replayed(call.command);
      if replayed {
        return false;
      }
      ok := ClaimAndSend(candidates.value, call);
    }

    method ClaimAndSend(candidates: seq<Candidate>, call: Call) returns (ok: bool)
      requires Valid() && !CommandExists(Db(), call.command)
      modifies this, rows
      ensures Valid() && rows == old(rows)
      ensures ok <==> AfterRead(old(Db()), candidates, call).Some?
      ensures ok ==> AfterRead(old(Db()), candidates, call) == Some(Db())
    {
      var claimed := ClaimBatch(call.command, candidates, call.now, {});
      if claimed.None? {
        return false;
      }
      ok := SendAndComplete(claimed.value, call);
    }

    method SendAndComplete(ids: seq<RecipientId>, call: Call) returns (ok: bool)
      requires Valid()
      modifies this, rows
      ensures Valid() && rows == old(rows)
      ensures ok <==> DispatchAll(old(Db()), ids, call).Some?
      ensures ok ==> Db() == CompleteIfIdle(DispatchAll(old(Db()), ids, call).value, call.now)
    {
      ok := DispatchRows(ids, call);
      if ok {
        Complete(call.now);
      }
    }
  }
}
