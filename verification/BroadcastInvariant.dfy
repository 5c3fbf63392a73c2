/**
 What every transaction keeps: the invariant of the database of a broadcast, and the relation
 between the database before and after (`Evolves`), which also composes over runs.
 */
module BroadcastInvariant {
  import opened Wrappers
  import opened BroadcastModel
  import opened BroadcastTransactions
  import Payload
  import Digest

  // ---- Two-state relation ----

  /** Dispatch states only move forward; accepted, failed and unknown messages stay as they are. */
  predicate Forward(a: DispatchState, b: DispatchState) {
    a == b || a.Pending? || (a.InProgress? && !b.Pending?)
  }

  predicate Advances(m: Message, n: Message) {
    && n.row == m.row && n.createdAt == m.createdAt
    && Forward(m.dispatch, n.dispatch)
    && (m.externalId.Some? ==> n.externalId == m.externalId)
  }

  predicate MessagesAdvance(r: Recipient, s: Recipient) {
    && |r.messages| <= |s.messages|
    && forall k | 0 <= k < |r.messages| :: Advances(r.messages[k], s.messages[k])
  }

  predicate SameSelection(r: Recipient, s: Recipient) {
    r.customer == s.customer && r.phone == s.phone && r.consentEvent == s.consentEvent
  }

  /** A blocked recipient whose latest message was never handed over stays that way. */
  predicate Abandoned(r: Recipient) {
    r.status.Blocked? && r.messages != [] && Latest(r).dispatch.Pending?
  }

  predicate StaysAbandoned(r: Recipient, s: Recipient) {
    Abandoned(r) ==> Abandoned(s) && |s.messages| == |r.messages|
  }

  /** After the draft, the inputs of a broadcast are frozen. */
  predicate Frozen(db: Database, after: Database) {
    !db.broadcast.status.Draft? ==>
      && !after.broadcast.status.Draft?
      && after.broadcast.version == db.broadcast.version
      && after.broadcast.draft == db.broadcast.draft
      && after.broadcast.template == db.broadcast.template
      && |after.recipients| == |db.recipients|
      && forall i | 0 <= i < |db.recipients| :: SameSelection(db.recipients[i], after.recipients[i])
  }

  predicate HistoryKept(db: Database, after: Database) {
    forall i | 0 <= i < |db.recipients| && db.recipients[i].messages != [] ::
      && i < |after.recipients|
      && MessagesAdvance(db.recipients[i], after.recipients[i])
      && StaysAbandoned(db.recipients[i], after.recipients[i])
  }

  predicate Evolves(db: Database, after: Database) {
    && Frozen(db, after)
    && HistoryKept(db, after)
    && after.settings == db.settings
    && db.audits <= after.audits
    && db.consents <= after.consents
    && (db.broadcast.startedBy.Some? ==> after.broadcast.startedBy == db.broadcast.startedBy)
    && (db.broadcast.firstCompletedAt.Some? ==> after.broadcast.firstCompletedAt == db.broadcast.firstCompletedAt)
  }

  lemma EvolvesReflexive(db: Database)
    ensures Evolves(db, db)
  {
  }

  lemma EvolvesTransitive(a: Database, b: Database, c: Database)
    requires Evolves(a, b) && Evolves(b, c)
    ensures Evolves(a, c)
  {
    forall i | 0 <= i < |a.recipients| && a.recipients[i].messages != []
      ensures i < |c.recipients| && MessagesAdvance(a.recipients[i], c.recipients[i])
              && StaysAbandoned(a.recipients[i], c.recipients[i])
    {
      assert MessagesAdvance(a.recipients[i], b.recipients[i]);
      assert MessagesAdvance(b.recipients[i], c.recipients[i]);
      forall k | 0 <= k < |a.recipients[i].messages|
        ensures Advances(a.recipients[i].messages[k], c.recipients[i].messages[k])
      {
        assert Advances(a.recipients[i].messages[k], b.recipients[i].messages[k]);
        assert Advances(b.recipients[i].messages[k], c.recipients[i].messages[k]);
      }
    }
  }

  // ---- One-state invariant ----

  /** Every message stores what the broadcast prescribes; the first one is sent for the starter. */
  predicate RowsPrescribed(b: Broadcast, id: RecipientId, r: Recipient) {
    forall k | 0 <= k < |r.messages| ::
      var row := r.messages[k].row;
      && row == Payload.StoredRow(b.template, id, r.phone, row.clientId, row.sentBy, row.retryOf)
      && (k == 0 ==> b.startedBy == Some(row.sentBy))
  }

  predicate PhaseAllows(status: BroadcastStatus, r: Recipient) {
    match status
    case Draft => r.status.Draft?
    case Confirmed => r.status.Ready? && r.messages == []
    case Processing => !r.status.Draft?
    case Completed => !r.status.Draft? && !r.status.Ready? && (r.status.InProgress? ==> r.claimToken.None?)
  }

  predicate RecipientInv(b: Broadcast, id: RecipientId, r: Recipient) {
    Sound(r) && RowsPrescribed(b, id, r) && PhaseAllows(b.status, r)
  }

  predicate PhonesDistinct(recipients: seq<Recipient>) {
    forall i, j | 0 <= i < j < |recipients| :: recipients[i].phone != recipients[j].phone
  }

  predicate DatabaseInv(db: Database) {
    && (forall i | 0 <= i < |db.recipients| :: RecipientInv(db.broadcast, i, db.recipients[i]))
    && PhonesDistinct(db.recipients)
    && (db.broadcast.startedBy.Some? <==> db.broadcast.status.Processing? || db.broadcast.status.Completed?)
    && (db.broadcast.status.Completed? ==> db.broadcast.firstCompletedAt.Some?)
    && db.settings.batchSize >= 1
  }

  /** What a transaction of a started broadcast may do to one recipient. */
  predicate RecipientStep(b: Broadcast, id: RecipientId, r: Recipient, s: Recipient) {
    RecipientInv(b, id, s) && SameSelection(r, s) && MessagesAdvance(r, s) && StaysAbandoned(r, s)
  }

  lemma OneRecipient(db: Database, id: RecipientId, r: Recipient)
    requires DatabaseInv(db) && id < |db.recipients|
    requires RecipientStep(db.broadcast, id, db.recipients[id], r)
    ensures DatabaseInv(WithRecipient(db, id, r)) && Evolves(db, WithRecipient(db, id, r))
  {
    OneEvolves(db, id, r);
  }

  lemma OneEvolves(db: Database, id: RecipientId, r: Recipient)
    requires id < |db.recipients| && SameSelection(db.recipients[id], r)
    requires MessagesAdvance(db.recipients[id], r) && StaysAbandoned(db.recipients[id], r)
    ensures Evolves(db, WithRecipient(db, id, r))
  {
  }

  lemma RewrittenMessage(b: Broadcast, id: RecipientId, r: Recipient, rank: nat, m: Message)
    requires RowsPrescribed(b, id, r) && rank < |r.messages| && Advances(r.messages[rank], m)
    ensures var s := Project(WithMessage(r, rank, m));
            RowsPrescribed(b, id, s) && MessagesAdvance(r, s) && SameSelection(r, s)
  {
  }

  // ---- Draft transactions ----

  lemma SelectedRows(db: Database, ids: seq<CustomerId>)
    ensures var rows := Selected(db, ids);
            && PhonesDistinct(rows)
            && forall i | 0 <= i < |rows| ::
                 rows[i].customer in ids && OwnsPhone(db, rows[i].customer, rows[i].phone)
                 && rows[i] == NewRecipient(rows[i].customer, rows[i].phone)
  {
    if ids != [] {
      SelectedRows(db, ids[..|ids| - 1]);
    }
  }

  lemma ReplaceRecipientsKeeps(db: Database, command: Uuid, ids: seq<CustomerId>, version: nat)
    requires DatabaseInv(db)
    ensures var after := ReplaceRecipients(db, command, ids, version);
            after.Some? ==> DatabaseInv(after.value) && Evolves(db, after.value)
  {
    SelectedRows(db, ids);
  }

  lemma UpdateDraftKeeps(db: Database, draft: Digest.Draft, template: Payload.Template, version: nat)
    requires DatabaseInv(db)
    ensures var after := UpdateDraft(db, draft, template, version);
            after.Some? ==> DatabaseInv(after.value) && Evolves(db, after.value)
  {
  }

  lemma ValidateKeeps(db: Database, version: nat, checks: Checks, token: Uuid, now: Time)
    requires DatabaseInv(db)
    ensures var after := Validate(db, version, checks, token, now);
            after.Some? ==> DatabaseInv(after.value) && Evolves(db, after.value)
  {
  }

  lemma ConfirmedRow(b: Broadcast, after: Broadcast, id: RecipientId, r: Recipient, event: nat)
    requires RecipientInv(b, id, r) && b.status.Draft? && after.status.Confirmed?
    ensures RecipientInv(after, id, ConfirmedRecipient(r, event))
  {
  }

  lemma ConfirmedDatabase(db: Database, events: seq<nat>, after: Database)
    requires DatabaseInv(db) && db.broadcast.status.Draft? && |events| == |db.recipients| == |after.recipients|
    requires forall i | 0 <= i < |events| :: after.recipients[i] == ConfirmedRecipient(db.recipients[i], events[i])
    requires after.broadcast.status.Confirmed? && after.broadcast.startedBy == db.broadcast.startedBy
    requires after.settings == db.settings && db.audits <= after.audits && db.consents == after.consents
    requires after.broadcast.firstCompletedAt == db.broadcast.firstCompletedAt
    ensures DatabaseInv(after) && Evolves(db, after)
  {
    forall i | 0 <= i < |after.recipients| ensures RecipientInv(after.broadcast, i, after.recipients[i]) {
      ConfirmedRow(db.broadcast, after.broadcast, i, db.recipients[i], events[i]);
    }
    forall i | 0 <= i < |db.recipients| ensures db.recipients[i].messages == [] {
      assert RecipientInv(db.broadcast, i, db.recipients[i]);
    }
  }

  lemma ConfirmKeeps(db: Database, command: Uuid, version: nat, token: Uuid, checks: Checks, actor: UserId, now: Time)
    requires DatabaseInv(db)
    ensures var after := Confirm(db, command, version, token, checks, actor, now);
            after.Some? ==> DatabaseInv(after.value) && Evolves(db, after.value)
  {
    var confirmed := Confirm(db, command, version, token, checks, actor, now);
    if confirmed.Some? && !CommandExists(db, command) {
      ConfirmedDatabase(db, ConsentEvents(db, now), confirmed.value);
    }
  }

  lemma LaunchKeeps(db: Database, command: Uuid, actor: UserId)
    requires DatabaseInv(db)
    ensures var after := Launch(db, command, actor);
            after.Some? ==> DatabaseInv(after.value) && Evolves(db, after.value)
  {
  }

  // ---- Worker transactions ----

  lemma RecoverStaleClaimsKeeps(db: Database, now: Time, locked: set<RecipientId>)
    requires DatabaseInv(db)
    ensures var after := RecoverStaleClaims(db, now, locked);
            DatabaseInv(after) && Evolves(db, after)
  {
    if !db.broadcast.status.Processing? {
      return;
    }
    var after := RecoverStaleClaims(db, now, locked);
    forall i | 0 <= i < |db.recipients|
      ensures RecipientStep(db.broadcast, i, db.recipients[i], after.recipients[i])
    {
      assert RecipientInv(db.broadcast, i, db.recipients[i]);
      if db.recipients[i].status.InProgress? {
        RecoveredRecipient(db.broadcast, i, db.recipients[i]);
      }
    }
    AllRecipients(db, after);
  }

  lemma RecoveredRecipient(b: Broadcast, id: RecipientId, r: Recipient)
    requires RecipientInv(b, id, r) && r.status.InProgress? && b.status.Processing?
    ensures RecipientStep(b, id, r, Recover(r))
  {
    RecoverSound(r);
    if Latest(r).dispatch.InProgress? {
      RewrittenMessage(b, id, r.(claimToken := None, claimedAt := None), |r.messages| - 1,
                       Latest(r).(dispatch := DispatchState.Unknown));
    }
  }

  /** Stepping every recipient of a started broadcast. */
  lemma AllRecipients(db: Database, after: Database)
    requires DatabaseInv(db)
    requires |after.recipients| == |db.recipients| && after.broadcast == db.broadcast && after.settings == db.settings
    requires db.audits <= after.audits && db.consents <= after.consents
    requires forall i | 0 <= i < |db.recipients| ::
               RecipientStep(db.broadcast, i, db.recipients[i], after.recipients[i])
    ensures DatabaseInv(after) && Evolves(db, after)
  {
    forall i, j | 0 <= i < j < |after.recipients|
      ensures after.recipients[i].phone != after.recipients[j].phone
    {
      assert RecipientStep(db.broadcast, i, db.recipients[i], after.recipients[i]);
      assert RecipientStep(db.broadcast, j, db.recipients[j], after.recipients[j]);
    }
  }

  lemma ClaimedRecipient(db: Database, id: RecipientId, clientId: Uuid, command: Uuid, now: Time)
    requires DatabaseInv(db) && db.broadcast.status.Processing?
    requires id < |db.recipients| && db.recipients[id].status.Ready?
    ensures var r := db.recipients[id];
            var c := Claim(r, InitialMessage(db, id, clientId, Sender(db.broadcast).value, now), command, now);
            && RecipientStep(db.broadcast, id, r, c)
            && c.messages != [] && c.status.InProgress? && c.claimToken == Some(command)
            && c.messages == (if r.messages == []
                              then [InitialMessage(db, id, clientId, Sender(db.broadcast).value, now)] else r.messages)
  {
    ClaimSound(db.recipients[id], InitialMessage(db, id, clientId, Sender(db.broadcast).value, now), command, now);
    assert RecipientInv(db.broadcast, id, db.recipients[id]);
  }

  lemma ClaimedRow(db: Database, command: Uuid, candidates: seq<Candidate>, now: Time, locked: set<RecipientId>,
                   i: RecipientId)
    requires DatabaseInv(db) && !CommandExists(db, command) && i < |db.recipients|
    requires ClaimRecipients(db, command, candidates, now, locked).Some?
    ensures var claim := ClaimRecipients(db, command, candidates, now, locked).value;
            && |claim.db.recipients| == |db.recipients|
            && RecipientStep(db.broadcast, i, db.recipients[i], claim.db.recipients[i])
            && (i in claim.ids ==> claim.db.recipients[i].messages != [])
  {
    var claim := ClaimRecipients(db, command, candidates, now, locked).value;
    assert RecipientInv(db.broadcast, i, db.recipients[i]);
    if i in claim.ids {
      ClaimedRecipient(db, i, ClientIdFor(candidates, i), command, now);
    }
  }

  lemma ClaimKeeps(db: Database, command: Uuid, candidates: seq<Candidate>, now: Time, locked: set<RecipientId>)
    requires DatabaseInv(db)
    ensures var claim := ClaimRecipients(db, command, candidates, now, locked);
            claim.Some? ==>
              && DatabaseInv(claim.value.db) && Evolves(db, claim.value.db)
              && forall n | 0 <= n < |claim.value.ids| ::
                   claim.value.ids[n] < |claim.value.db.recipients|
                   && claim.value.db.recipients[claim.value.ids[n]].messages != []
  {
    var claim := ClaimRecipients(db, command, candidates, now, locked);
    if claim.Some? && !CommandExists(db, command) {
      var after, ids := claim.value.db, claim.value.ids;
      forall i | 0 <= i < |db.recipients|
        ensures RecipientStep(db.broadcast, i, db.recipients[i], after.recipients[i])
        ensures i in ids ==> after.recipients[i].messages != []
      {
        ClaimedRow(db, command, candidates, now, locked, i);
      }
      AllRecipients(db, after);
    }
  }

  lemma BlockRecipientKeeps(db: Database, id: RecipientId, reason: BlockReason)
    requires DatabaseInv(db) && id < |db.recipients| && db.recipients[id].messages != []
    ensures DatabaseInv(BlockRecipient(db, id, reason)) && Evolves(db, BlockRecipient(db, id, reason))
  {
    var r := db.recipients[id];
    assert RecipientInv(db.broadcast, id, r);
    BlockSound(r, reason);
    OneRecipient(db, id, Block(r, reason));
  }

  lemma PrepareKeeps(db: Database, id: RecipientId, templateAvailable: bool, now: Time)
    requires DatabaseInv(db)
    ensures match PrepareDispatch(db, id, templateAvailable, now)
            case Raises => false
            case Skip(after) => DatabaseInv(after) && Evolves(db, after)
            case Dispatch(after, plan) => after == db && PlanMatches(db, plan)
  {
    if id < |db.recipients| && db.recipients[id].status.InProgress? {
      assert RecipientInv(db.broadcast, id, db.recipients[id]);
      if PrepareDispatch(db, id, templateAvailable, now).Dispatch? {
        PlanBuiltMatches(db, id, templateAvailable, now);
      } else {
        BlockRecipientKeeps(db, id, TemplateUnavailable);
        BlockRecipientKeeps(db, id, ConsentOrPhoneChanged);
        BlockRecipientKeeps(db, id, AttemptAlreadyExists);
      }
    } else {
      EvolvesReflexive(db);
    }
  }

  lemma PlanBuiltMatches(db: Database, id: RecipientId, templateAvailable: bool, now: Time)
    requires DatabaseInv(db) && PrepareDispatch(db, id, templateAvailable, now).Dispatch?
    ensures PlanMatches(db, PrepareDispatch(db, id, templateAvailable, now).plan)
  {
    var r := db.recipients[id];
    assert RecipientInv(db.broadcast, id, r);
    assert r.messages[|r.messages| - 1] == Latest(r);
  }

  /** The plan of a worker carries the client id and the link of a stored message. */
  predicate PlanMatches(db: Database, plan: Plan) {
    && plan.recipient < |db.recipients|
    && var r := db.recipients[plan.recipient];
    && db.broadcast.startedBy.Some?
    && exists k | 0 <= k < |r.messages| ::
         plan.input == Payload.PlannedInput(db.broadcast.template, plan.recipient, r.phone, r.messages[k].row.clientId,
                                            db.broadcast.startedBy.value, r.messages[k].row.retryOf)
  }

  lemma PlanStillMatches(db: Database, after: Database, plan: Plan)
    requires DatabaseInv(db) && Evolves(db, after) && PlanMatches(db, plan)
    ensures PlanMatches(after, plan)
  {
    var r := db.recipients[plan.recipient];
    assert RecipientInv(db.broadcast, plan.recipient, r);
    var k :| 0 <= k < |r.messages| &&
             plan.input == Payload.PlannedInput(db.broadcast.template, plan.recipient, r.phone,
                                                r.messages[k].row.clientId, db.broadcast.startedBy.value,
                                                r.messages[k].row.retryOf);
    var s := after.recipients[plan.recipient];
    assert Advances(r.messages[k], s.messages[k]);
    assert SameSelection(r, s);
  }

  lemma StartKeeps(db: Database, ref: MessageRef, now: Time)
    requires DatabaseInv(db) && ValidRef(db, ref)
    ensures match StartDispatch(db, ref, now)
            case NotStarted(after) => DatabaseInv(after) && Evolves(db, after)
            case Handed(after) => DatabaseInv(after) && Evolves(db, after) && StartAllowed(db, ref, now)
                                  && ValidRef(after, ref) && MessageAt(after, ref).dispatch.InProgress?
  {
    var r := db.recipients[ref.recipient];
    assert RecipientInv(db.broadcast, ref.recipient, r);
    if !StartAllowed(db, ref, now) {
      BlockRecipientKeeps(db, ref.recipient, ConsentOrPhoneChanged);
    } else if MessageAt(db, ref).dispatch.Pending? {
      StartSound(r);
      RewrittenMessage(db.broadcast, ref.recipient, r, ref.rank,
                       r.messages[ref.rank].(dispatch := DispatchState.InProgress));
      OneRecipient(db, ref.recipient, BroadcastModel.Start(r, ref.rank));
    }
  }

  lemma ReconciledPhase(b: Broadcast, r: Recipient, rank: nat, answer: Answer, now: Time)
    requires Sound(r) && PhaseAllows(b.status, r) && rank < |r.messages|
    ensures PhaseAllows(b.status, Reconcile(r, rank, answer, now))
  {
    ReconcileSound(r, rank, answer, now);
  }

  /** What has left the pending state is not abandoned, and reconciling touches nothing else. */
  lemma ReconciledStays(r: Recipient, rank: nat, answer: Answer, now: Time)
    requires Sound(r) && rank < |r.messages|
    ensures StaysAbandoned(r, Reconcile(r, rank, answer, now))
  {
  }

  lemma ReconciledRecipient(b: Broadcast, id: RecipientId, r: Recipient, rank: nat, answer: Answer, now: Time)
    requires RecipientInv(b, id, r) && rank < |r.messages|
    ensures RecipientStep(b, id, r, Reconcile(r, rank, answer, now))
  {
    ReconcileSound(r, rank, answer, now);
    ReconciledPhase(b, r, rank, answer, now);
    ReconciledStays(r, rank, answer, now);
    if r.messages[rank].dispatch.InProgress? {
      AnswerAdvances(r.messages[rank], answer, now);
      RewrittenMessage(b, id, r, rank, Answered(r.messages[rank], answer, now));
    }
  }

  lemma AnswerAdvances(m: Message, answer: Answer, now: Time)
    requires m.dispatch.InProgress? && m.externalId.None?
    ensures Advances(m, Answered(m, answer, now))
  {
  }

  lemma ReconcileKeeps(db: Database, ref: MessageRef, answer: Answer, now: Time)
    requires DatabaseInv(db) && ValidRef(db, ref)
    ensures DatabaseInv(ReconcileAnswer(db, ref, answer, now)) && Evolves(db, ReconcileAnswer(db, ref, answer, now))
  {
    var r := db.recipients[ref.recipient];
    assert RecipientInv(db.broadcast, ref.recipient, r);
    ReconciledRecipient(db.broadcast, ref.recipient, r, ref.rank, answer, now);
    OneRecipient(db, ref.recipient, Reconcile(r, ref.rank, answer, now));
  }

  lemma NoneRemain(recipients: seq<Recipient>)
    ensures RemainingCount(recipients) == 0 <==> forall i | 0 <= i < |recipients| :: !Remaining(recipients[i])
  {
    if recipients != [] {
      var last := |recipients| - 1;
      NoneRemain(recipients[..last]);
      assert forall i | 0 <= i < last :: recipients[..last][i] == recipients[i];
    }
  }

  lemma CompletedRecipient(db: Database, now: Time, i: RecipientId)
    requires DatabaseInv(db) && RemainingCount(db.recipients) == 0 && i < |db.recipients|
    requires db.broadcast.startedBy.Some?
    ensures RecipientInv(CompleteIfIdle(db, now).broadcast, i, db.recipients[i])
  {
    NoneRemain(db.recipients);
    assert RecipientInv(db.broadcast, i, db.recipients[i]);
  }

  lemma CompleteKeeps(db: Database, now: Time)
    requires DatabaseInv(db) && db.broadcast.startedBy.Some?
    requires !db.broadcast.status.Draft? && !db.broadcast.status.Confirmed?
    ensures DatabaseInv(CompleteIfIdle(db, now)) && Evolves(db, CompleteIfIdle(db, now))
  {
    EvolvesReflexive(db);
    if RemainingCount(db.recipients) == 0 {
      forall i | 0 <= i < |db.recipients|
        ensures RecipientInv(CompleteIfIdle(db, now).broadcast, i, db.recipients[i])
      {
        CompletedRecipient(db, now, i);
      }
    }
  }

  // ---- Retry ----

  function Resumed(db: Database): Database {
    db.(broadcast := db.broadcast.(status := BroadcastStatus.Processing))
  }

  /** Serving requests keeps everything except that a completed broadcast must resume. */
  predicate ServedFrom(db: Database, retried: Retried) {
    && Evolves(db, retried.db)
    && retried.db.broadcast == db.broadcast && retried.db.audits == db.audits
    && (if retried.created == 0 then retried.db == db
        else db.broadcast.startedBy.Some? && !db.broadcast.status.Draft? && DatabaseInv(Resumed(retried.db)))
  }

  lemma ServedNext(db: Database, before: Retried, request: RetryRequest, actor: UserId, now: Time)
    requires DatabaseInv(db) && ServedFrom(db, before) && Retryable(before.db, request)
    ensures ServedFrom(db, Retried(RetryOne(before.db, request, actor, now), before.created + 1))
  {
    ResumeInv(before.db, Resumed(before.db), request);
    RetryOneKeeps(Resumed(before.db), request, actor, now);
    SameStep(before.db, request, actor, now);
    EvolvesTransitive(db, before.db, RetryOne(before.db, request, actor, now));
  }

  /** Resuming first or retrying first makes no difference. */
  lemma SameStep(db: Database, request: RetryRequest, actor: UserId, now: Time)
    requires Retryable(db, request) && Retryable(Resumed(db), request) && !db.broadcast.status.Draft?
    requires Evolves(Resumed(db), RetryOne(Resumed(db), request, actor, now))
    ensures RetryOne(Resumed(db), request, actor, now) == Resumed(RetryOne(db, request, actor, now))
    ensures Evolves(db, RetryOne(db, request, actor, now))
  {
  }

  lemma {:induction false} RetryAllKeeps(db: Database, requests: seq<RetryRequest>, actor: UserId, now: Time)
    requires DatabaseInv(db)
    ensures ServedFrom(db, RetryAll(db, requests, actor, now))
  {
    if requests == [] {
      EvolvesReflexive(db);
    } else {
      RetryAllKeeps(db, requests[..|requests| - 1], actor, now);
      var before := RetryAll(db, requests[..|requests| - 1], actor, now);
      if Retryable(before.db, requests[|requests| - 1]) {
        ServedNext(db, before, requests[|requests| - 1], actor, now);
      }
    }
  }

  lemma ResumeInv(db: Database, resumed: Database, request: RetryRequest)
    requires DatabaseInv(db) || DatabaseInv(resumed)
    requires resumed == db.(broadcast := db.broadcast.(status := BroadcastStatus.Processing))
    requires Retryable(db, request)
    requires DatabaseInv(resumed) ==> !db.broadcast.status.Draft?
    ensures DatabaseInv(resumed) && Retryable(resumed, request) && db.broadcast.startedBy.Some?
            && !db.broadcast.status.Draft?
  {
    if DatabaseInv(db) {
      assert RecipientInv(db.broadcast, request.recipient, db.recipients[request.recipient]);
      forall i | 0 <= i < |db.recipients|
        ensures RecipientInv(resumed.broadcast, i, resumed.recipients[i])
      {
        assert RecipientInv(db.broadcast, i, db.recipients[i]);
      }
    }
  }

  lemma RetryOneKeeps(db: Database, request: RetryRequest, actor: UserId, now: Time)
    requires DatabaseInv(db) && db.broadcast.status.Processing? && Retryable(db, request)
    ensures var after := RetryOne(db, request, actor, now);
            && DatabaseInv(after) && Evolves(db, after)
            && after.recipients[request.recipient].status.Ready?
  {
    var r := db.recipients[request.recipient];
    assert RecipientInv(db.broadcast, request.recipient, r);
    var row := Payload.StoredRow(db.broadcast.template, request.recipient, r.conversation.value, request.clientId,
                                 actor, Some(|r.messages| - 1));
    RetrySound(r, NewMessage(row, now));
    OneRecipient(db, request.recipient, Retry(r, NewMessage(row, now)));
  }

  lemma RetryFailedKeeps(db: Database, command: Uuid, requests: seq<RetryRequest>, actor: UserId,
                         templateAvailable: bool, now: Time)
    requires DatabaseInv(db)
    ensures var after := RetryFailed(db, command, requests, actor, templateAvailable, now);
            after.Some? ==> DatabaseInv(after.value) && Evolves(db, after.value)
  {
    RetryAllKeeps(db, requests, actor, now);
    var retried := RetryAll(db, requests, actor, now);
    if retried.created == 0 {
      AuditedKeeps(db, db, RetryAuthorized, Some(command), 0);
    } else {
      AuditedKeeps(db, Resumed(retried.db), RetryAuthorized, Some(command), retried.created);
    }
    EvolvesReflexive(db);
  }

  lemma AuditedKeeps(db: Database, after: Database, kind: AuditKind, command: Option<Uuid>, affected: nat)
    requires DatabaseInv(after)
    requires Evolves(db, after) || (db == after)
    ensures DatabaseInv(Audited(after, kind, command, affected)) && Evolves(db, Audited(after, kind, command, affected))
  {
    if db == after {
      EvolvesReflexive(db);
    }
  }

  lemma NotifiedPhase(b: Broadcast, r: Recipient, rank: nat, provider: ProviderState, evidence: Evidence)
    requires Sound(r) && PhaseAllows(b.status, r) && rank < |r.messages|
    ensures PhaseAllows(b.status, Notify(r, rank, provider, evidence))
  {
  }

  lemma NotifiedStays(r: Recipient, rank: nat, provider: ProviderState, evidence: Evidence)
    requires Sound(r) && rank < |r.messages|
    ensures StaysAbandoned(r, Notify(r, rank, provider, evidence))
  {
  }

  lemma NotifiedRecipient(b: Broadcast, id: RecipientId, r: Recipient, rank: nat, provider: ProviderState,
                          evidence: Evidence)
    requires RecipientInv(b, id, r) && rank < |r.messages|
    ensures RecipientStep(b, id, r, Notify(r, rank, provider, evidence))
  {
    NotifySound(r, rank, provider, evidence);
    NotifiedPhase(b, r, rank, provider, evidence);
    NotifiedStays(r, rank, provider, evidence);
    if r.messages[rank].externalId.Some? {
      RewrittenMessage(b, id, r, rank, r.messages[rank].(provider := Some(provider), evidence := evidence));
    }
  }

  lemma DeliveryStatusKeeps(db: Database, ref: MessageRef, provider: ProviderState, evidence: Evidence)
    requires DatabaseInv(db)
    ensures DatabaseInv(DeliveryStatus(db, ref, provider, evidence))
            && Evolves(db, DeliveryStatus(db, ref, provider, evidence))
  {
    if ValidRef(db, ref) {
      assert RecipientInv(db.broadcast, ref.recipient, db.recipients[ref.recipient]);
      NotifiedRecipient(db.broadcast, ref.recipient, db.recipients[ref.recipient], ref.rank, provider, evidence);
      OneRecipient(db, ref.recipient, Notify(db.recipients[ref.recipient], ref.rank, provider, evidence));
    }
  }
}
