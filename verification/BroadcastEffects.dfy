/**
 What each broadcast transaction writes, over the columns: the new broadcast, the new rows, the audit,
 and when it raises instead.
 */
module BroadcastEffects {
  import opened Wrappers
  import opened BroadcastModel
  import opened BroadcastTransactions
  import opened BroadcastRules
  import Consent
  import Digest
  import Payload

  predicate Repeats(db: Database, command: Uuid) {
    exists i | 0 <= i < |db.audits| :: db.audits[i].command == Some(command)
  }

  /** Only the broadcast, its recipients and its audits may differ, and one audit is added. */
  predicate OneAudit(db: Database, after: Database, kind: AuditKind, command: Option<Uuid>, affected: nat) {
    && after.audits == db.audits + [Audit(kind, command, affected)]
    && after.settings == db.settings && after.consents == db.consents && after.customers == db.customers
    && after.activeUsers == db.activeUsers
  }

  // ---- Drafting ----

  /** A row of a new selection: a customer and a phone, nothing decided and nothing sent. */
  predicate Untouched(r: Recipient) {
    && r.status == RecipientStatus.Draft && r.consentEvent == None && r.reason == None && r.conversation == None
    && r.claimToken == None && r.claimedAt == None && r.firstAttemptAt == None && r.latestAttemptAt == None
    && r.evidence == Evidence(None, None, None, None, None) && r.messages == []
  }

  lemma {:induction false} SelectedUntouched(db: Database, ids: seq<CustomerId>)
    ensures forall i | 0 <= i < |Selected(db, ids)| :: Untouched(Selected(db, ids)[i])
  {
    if ids != [] {
      SelectedUntouched(db, ids[..|ids| - 1]);
    }
  }

  lemma ReplaceIff(db: Database, command: Uuid, ids: seq<CustomerId>, version: nat)
    requires !Repeats(db, command)
    ensures var r := ReplaceRecipients(db, command, ids, version);
            && (r.Some? <==> ids != [] && db.broadcast.status == BroadcastStatus.Draft
                             && db.broadcast.version == version)
            && (r.Some? ==>
                  && r.value.broadcast == db.broadcast.(version := db.broadcast.version + 1, validationToken := None)
                  && (forall i | 0 <= i < |r.value.recipients| :: Untouched(r.value.recipients[i]))
                  && r.value.conversations == db.conversations
                  && OneAudit(db, r.value, RecipientsReplaced, Some(command), |r.value.recipients|))
  {
    SelectedUntouched(db, ids);
  }

  /** Editing the draft takes the token away, so what was validated cannot be confirmed any more. */
  lemma EditIff(db: Database, draft: Digest.Draft, template: Payload.Template, version: nat)
    ensures var r := UpdateDraft(db, draft, template, version);
            && (r.Some? <==> db.broadcast.status == BroadcastStatus.Draft && db.broadcast.version == version)
            && (r.Some? ==>
                  && r.value.broadcast == db.broadcast.(draft := draft, template := template, validationToken := None,
                                                        version := db.broadcast.version + 1)
                  && r.value.recipients == db.recipients && r.value.conversations == db.conversations
                  && OneAudit(db, r.value, DraftEdited, None, 0))
  {
  }

  // ---- Validating and confirming ----

  /** At least one recipient, template and media there, and every recipient may be written to. */
  ghost predicate MaySend(db: Database, checks: Checks, now: Time) {
    && db.recipients != [] && checks.templateAvailable && checks.mediaAvailable
    && forall i | 0 <= i < |db.recipients| :: MayBeWrittenTo(db, db.recipients[i], now)
  }

  lemma MaySendIff(db: Database, checks: Checks, now: Time)
    ensures ValidSnapshot(db, checks, now) <==> MaySend(db, checks, now)
  {
    forall i | 0 <= i < |db.recipients|
      ensures Eligible(db, db.recipients[i], now) <==> MayBeWrittenTo(db, db.recipients[i], now)
    {
      EligibleIff(db, db.recipients[i], now);
    }
  }

  /** A validation issues a token exactly when the broadcast may be sent; it never moves the version. */
  lemma ValidateIff(db: Database, version: nat, checks: Checks, token: Uuid, now: Time)
    ensures var r := Validate(db, version, checks, token, now);
            && (r.Some? <==> db.broadcast.status == BroadcastStatus.Draft && db.broadcast.version == version)
            && (r.Some? ==>
                  && r.value.broadcast.validationToken == (if MaySend(db, checks, now) then Some(token) else None)
                  && (MaySend(db, checks, now) ==> r.value.broadcast.validUntil == now + 10 * 60 * 1_000_000)
                  && r.value.broadcast == db.broadcast.(validationToken := r.value.broadcast.validationToken,
                                                        validationDigest := r.value.broadcast.validationDigest,
                                                        validUntil := r.value.broadcast.validUntil)
                  && r.value.recipients == db.recipients && r.value.conversations == db.conversations
                  && OneAudit(db, r.value, Validated, None, |db.recipients|))
  {
    MaySendIff(db, checks, now);
  }

  /** The inputs of a digest, read off the rows: who, which phone, and the opt-in that allows it. */
  predicate DigestInputs(db: Database, now: Time, selections: seq<Digest.Selection>, events: seq<nat>) {
    && |selections| == |events| == |db.recipients|
    && forall i | 0 <= i < |db.recipients| ::
         && selections[i] == Digest.Selection(db.recipients[i].customer, db.recipients[i].phone)
         && events[i] < |db.consents| && db.consents[events[i]].decision == Consent.OptIn
         && NewestInForce(db, db.recipients[i], now, events[i])
  }

  lemma DigestReadsRows(db: Database, now: Time)
    requires AllEligible(db, now)
    ensures DigestInputs(db, now, Selections(db), ConsentEvents(db, now))
    ensures DigestOf(db, now) == Digest.Of(db.broadcast.id, db.broadcast.version, db.broadcast.draft, Selections(db),
                                           ConsentEvents(db, now))
  {
    forall i | 0 <= i < |db.recipients|
      ensures ConsentEvents(db, now)[i] < |db.consents|
              && db.consents[ConsentEvents(db, now)[i]].decision == Consent.OptIn
              && NewestInForce(db, db.recipients[i], now, ConsentEvents(db, now)[i])
    {
      EligibleIff(db, db.recipients[i], now);
    }
  }

  /** Everything a confirmation asks for besides the digest. */
  ghost predicate MayConfirm(db: Database, version: nat, token: Uuid, checks: Checks, now: Time) {
    && db.broadcast.status == BroadcastStatus.Draft && db.broadcast.version == version
    && db.broadcast.validationToken == Some(token) && now <= db.broadcast.validUntil
    && MaySend(db, checks, now)
  }

  lemma ConfirmIff(db: Database, command: Uuid, version: nat, token: Uuid, checks: Checks, actor: UserId, now: Time)
    requires !Repeats(db, command)
    ensures Confirm(db, command, version, token, checks, actor, now).Some?
            <==> MayConfirm(db, version, token, checks, now) && AllEligible(db, now)
                 && DigestOf(db, now) == db.broadcast.validationDigest
  {
    MaySendIff(db, checks, now);
  }

  /** A confirmation makes every recipient ready and pins the opt-in that is in force for it. */
  lemma ConfirmedRows(db: Database, command: Uuid, version: nat, token: Uuid, checks: Checks, actor: UserId, now: Time)
    requires !Repeats(db, command) && Confirm(db, command, version, token, checks, actor, now).Some?
    ensures var after := Confirm(db, command, version, token, checks, actor, now).value;
            && after.broadcast == db.broadcast.(status := BroadcastStatus.Confirmed, confirmedBy := Some(actor),
                                                validationToken := None)
            && |after.recipients| == |db.recipients|
            && (forall i | 0 <= i < |db.recipients| ::
                  && after.recipients[i].status == RecipientStatus.Ready
                  && after.recipients[i].consentEvent.Some?
                  && NewestInForce(db, db.recipients[i], now, after.recipients[i].consentEvent.value)
                  && after.recipients[i] == db.recipients[i].(status := after.recipients[i].status,
                                                              consentEvent := after.recipients[i].consentEvent))
            && after.conversations == db.conversations
            && OneAudit(db, after, AuditKind.Confirmed, Some(command), |db.recipients|)
  {
    DigestReadsRows(db, now);
  }

  lemma LaunchIff(db: Database, command: Uuid, actor: UserId)
    requires !Repeats(db, command)
    ensures var r := Launch(db, command, actor);
            && (r.Some? <==> db.broadcast.status == BroadcastStatus.Confirmed)
            && (r.Some? ==>
                  && r.value.broadcast == db.broadcast.(status := BroadcastStatus.Processing, startedBy := Some(actor))
                  && r.value.recipients == db.recipients && r.value.conversations == db.conversations
                  && OneAudit(db, r.value, Started, Some(command), 0))
  {
  }

  // ---- Claiming ----

  /** The conversation is free for the recipient: none yet, or a resolved one of the same customer. */
  predicate Free(conversations: map<Phone, Conversation>, r: Recipient) {
    r.phone !in conversations
    || (conversations[r.phone].customer == Some(r.customer) && conversations[r.phone].resolved)
  }

  /** Linking adds a conversation for each phone that has none and leaves the others as they are. */
  lemma {:induction false} LinkedIff(conversations: map<Phone, Conversation>, recipients: seq<Recipient>,
                                     ids: seq<RecipientId>)
    requires forall n | 0 <= n < |ids| :: ids[n] < |recipients|
    requires forall m, n | 0 <= m < n < |ids| :: recipients[ids[m]].phone != recipients[ids[n]].phone
    ensures LinkAll(conversations, recipients, ids).Some?
            <==> forall n | 0 <= n < |ids| :: Free(conversations, recipients[ids[n]])
    ensures LinkAll(conversations, recipients, ids).Some? ==>
              var linked := LinkAll(conversations, recipients, ids).value;
              && (forall phone | phone in conversations :: phone in linked && linked[phone] == conversations[phone])
              && (forall n | 0 <= n < |ids| :: recipients[ids[n]].phone in linked)
              && (forall phone | phone in linked && phone !in conversations ::
                    exists n | 0 <= n < |ids| ::
                      && recipients[ids[n]].phone == phone
                      && linked[phone] == Conversation(Some(recipients[ids[n]].customer), true, false))
    decreases |ids|
  {
    if ids != [] {
      var r, rest := recipients[ids[0]], ids[1..];
      var linked := if r.phone in conversations then conversations
                    else conversations[r.phone := Conversation(Some(r.customer), true, false)];
      assert forall n | 0 <= n < |rest| :: rest[n] == ids[n + 1];
      LinkedIff(linked, recipients, rest);
      assert forall n | 0 < n < |ids| :: ids[n] == rest[n - 1];
      assert forall n | 0 <= n < |rest| ::
               Free(linked, recipients[rest[n]]) <==> Free(conversations, recipients[rest[n]]);
      assert ids[0] < |recipients|;
    }
  }

  /** A claimed recipient: in progress under the command since now, with its pending message. */
  predicate Claimed(was: Recipient, r: Recipient, command: Uuid, now: Time, clientId: Uuid, sender: UserId) {
    && r.status == RecipientStatus.InProgress && r.claimToken == Some(command) && r.claimedAt == Some(now)
    && r.conversation == Some(was.phone) && r.reason == was.reason
    && r.customer == was.customer && r.phone == was.phone && r.consentEvent == was.consentEvent
    && (was.messages != [] ==> r.messages == was.messages)
    && (was.messages == [] ==>
          && |r.messages| == 1
          && var m := r.messages[0];
          && m.dispatch == DispatchState.Pending && m.externalId == None && m.provider == None && m.createdAt == now
          && m.row.clientId == clientId && m.row.sentBy == sender && m.row.conversation == was.phone
          && m.row.retryOf == None)
  }

  /** The id that the last candidate for a recipient brings for a first message. */
  predicate BroughtFor(candidates: seq<Candidate>, id: RecipientId, clientId: Uuid) {
    exists n | 0 <= n < |candidates| :: candidates[n] == Candidate(id, clientId)
  }

  lemma {:induction false} ClientIdBrought(candidates: seq<Candidate>, id: RecipientId)
    requires IsCandidate(candidates, id)
    ensures BroughtFor(candidates, id, ClientIdFor(candidates, id))
  {
    var last := |candidates| - 1;
    if candidates[last].recipient == id {
      assert candidates[last] == Candidate(id, ClientIdFor(candidates, id));
    } else {
      assert forall n | 0 <= n < last :: candidates[..last][n] == candidates[n];
      ClientIdBrought(candidates[..last], id);
      var n :| 0 <= n < last && candidates[..last][n] == Candidate(id, ClientIdFor(candidates[..last], id));
      assert candidates[n] == Candidate(id, ClientIdFor(candidates, id));
    }
  }

  /** A ready recipient whose latest message is pending, if it has one: what `Claim` leaves of it. */
  lemma ClaimedRow(r: Recipient, initial: Message, command: Uuid, now: Time)
    requires r.status == RecipientStatus.Ready
    requires r.messages != [] ==> r.messages[|r.messages| - 1].dispatch == DispatchState.Pending
                                  && r.messages[|r.messages| - 1].provider == None
    requires initial.dispatch == DispatchState.Pending && initial.provider == None && initial.externalId == None
    requires initial.createdAt == now && initial.row.conversation == r.phone && initial.row.retryOf == None
    ensures Claimed(r, Claim(r, initial, command, now), command, now, initial.row.clientId, initial.row.sentBy)
  {
  }

  /** One whose latest message is no longer pending is blocked instead, and its messages stay. */
  lemma ClaimBlocked(r: Recipient, initial: Message, command: Uuid, now: Time)
    requires r.messages != [] && r.messages[|r.messages| - 1].dispatch != DispatchState.Pending
    ensures var s := Claim(r, initial, command, now);
            && s.status == RecipientStatus.Blocked && s.reason == Some(AttemptAlreadyExists)
            && s.claimToken == None && s.claimedAt == None && s.messages == r.messages
            && s.conversation == Some(r.phone)
  {
  }

  /** The one who started the broadcast, or the one who confirmed it when nobody is recorded as starting it. */
  predicate SendsFor(b: Broadcast, sender: UserId) {
    b.startedBy == Some(sender) || (b.startedBy == None && b.confirmedBy == Some(sender))
  }

  lemma ClaimBatchIff(db: Database, command: Uuid, candidates: seq<Candidate>, now: Time, locked: set<RecipientId>)
    requires !Repeats(db, command)
    ensures var r := ClaimRecipients(db, command, candidates, now, locked);
            && (r.Some? <==> && db.broadcast.status == BroadcastStatus.Processing
                             && (db.broadcast.startedBy.Some? || db.broadcast.confirmedBy.Some?)
                             && LinkAll(db.conversations, db.recipients, Claimable(db, candidates, locked)).Some?)
            && (r.Some? ==>
                  && r.value.ids == Claimable(db, candidates, locked)
                  && r.value.db.broadcast == db.broadcast
                  && |r.value.db.recipients| == |db.recipients|
                  && (forall i | 0 <= i < |db.recipients| && i !in r.value.ids ::
                        r.value.db.recipients[i] == db.recipients[i])
                  && OneAudit(db, r.value.db, Processed, Some(command), |r.value.ids|))
  {
  }

  lemma ClaimBatchRows(db: Database, command: Uuid, candidates: seq<Candidate>, now: Time, locked: set<RecipientId>,
                       id: RecipientId)
    requires !Repeats(db, command) && ClaimRecipients(db, command, candidates, now, locked).Some?
    requires id in ClaimRecipients(db, command, candidates, now, locked).value.ids
    requires var r := db.recipients[id];
             r.messages != [] ==> r.messages[|r.messages| - 1].dispatch == DispatchState.Pending
                                  && r.messages[|r.messages| - 1].provider == None
    ensures id < |db.recipients|
    ensures exists clientId, sender ::
              && BroughtFor(candidates, id, clientId) && SendsFor(db.broadcast, sender)
              && Claimed(db.recipients[id],
                         ClaimRecipients(db, command, candidates, now, locked).value.db.recipients[id], command, now,
                         clientId, sender)
  {
    ClaimBatchRow(db, command, candidates, now, locked, id);
    var clientId, sender := ClientIdFor(candidates, id), Sender(db.broadcast).value;
    ClaimedRow(db.recipients[id], InitialMessage(db, id, clientId, sender, now), command, now);
    assert SendsFor(db.broadcast, sender);
    ClientIdBrought(candidates, id);
  }

  lemma ClaimBatchRow(db: Database, command: Uuid, candidates: seq<Candidate>, now: Time, locked: set<RecipientId>,
                      id: RecipientId)
    requires !Repeats(db, command) && ClaimRecipients(db, command, candidates, now, locked).Some?
    requires id in ClaimRecipients(db, command, candidates, now, locked).value.ids
    ensures id < |db.recipients| && db.recipients[id].status.Ready? && IsCandidate(candidates, id)
    ensures Sender(db.broadcast).Some?
    ensures ClaimRecipients(db, command, candidates, now, locked).value.db.recipients[id]
            == Claim(db.recipients[id],
                     InitialMessage(db, id, ClientIdFor(candidates, id), Sender(db.broadcast).value, now), command, now)
  {
  }

  // ---- Admission, and retrying ----

  /** The conversation is open to a resolved, live customer, the sender is active, and the stored row is the plan's. */
  lemma AdmitsIff(db: Database, plan: Plan, ref: MessageRef)
    ensures Admits(db, plan, ref)
            <==> && Payload.Normalize(plan.input).Success?
                 && plan.input.conversation in db.conversations
                 && (var c := db.conversations[plan.input.conversation];
                     && c.hidden == false && c.resolved && c.customer.Some?
                     && c.customer.value in db.customers && db.customers[c.customer.value].deleted == false)
                 && plan.input.sentBy in db.activeUsers
                 && ref.recipient < |db.recipients| && ref.rank < |db.recipients[ref.recipient].messages|
                 && (var m := db.recipients[ref.recipient].messages[ref.rank];
                     m.row.clientId == plan.input.clientId
                     && Payload.SamePayload(m.row, Payload.Normalize(plan.input).value))
  {
  }

  /** A retry command puts the broadcast back to work exactly when it made a new message. */
  lemma RetryIff(db: Database, command: Uuid, requests: seq<RetryRequest>, actor: UserId, templateAvailable: bool,
                 now: Time)
    requires !Repeats(db, command)
    ensures var r := RetryFailed(db, command, requests, actor, templateAvailable, now);
            var served := RetryAll(db, requests, actor, now);
            && (r.Some? <==> requests != [] && templateAvailable)
            && (r.Some? ==>
                  && r.value.recipients == served.db.recipients && r.value.conversations == db.conversations
                  && r.value.broadcast == db.broadcast.(status := if served.created > 0 then BroadcastStatus.Processing
                                                                  else db.broadcast.status)
                  && OneAudit(db, r.value, RetryAuthorized, Some(command), served.created))
  {
    RetryLeavesTheRest(db, requests, actor, now);
  }

  lemma {:induction false} RetryLeavesTheRest(db: Database, requests: seq<RetryRequest>, actor: UserId, now: Time)
    ensures SameApart(db, RetryAll(db, requests, actor, now).db)
  {
    if requests != [] {
      RetryLeavesTheRest(db, requests[..|requests| - 1], actor, now);
    }
  }
}
