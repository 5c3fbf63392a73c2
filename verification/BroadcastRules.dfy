/**
 The rules that single transactions follow, over the columns they read: which customers a selection
 keeps, how long a token lives, whom a claim takes, why a recipient is blocked, when a dispatch starts
 and whom a retry serves.
 */
module BroadcastRules {
  import opened Wrappers
  import opened BroadcastModel
  import opened BroadcastTransactions
  import Consent

  // ---- Selection ----

  /** Requested, not deleted, and with a phone. */
  predicate CanBeReached(db: Database, id: CustomerId) {
    id in db.customers && db.customers[id].deleted == false && db.customers[id].phone != None
  }

  /** The request at place `n` is the first for its phone. */
  predicate FirstForPhone(db: Database, ids: seq<CustomerId>, n: nat) {
    && n < |ids| && CanBeReached(db, ids[n])
    && forall m | 0 <= m < n && CanBeReached(db, ids[m]) :: db.customers[ids[m]].phone != db.customers[ids[n]].phone
  }

  predicate IsSelected(rows: seq<Recipient>, id: CustomerId, phone: Option<Phone>) {
    exists i | 0 <= i < |rows| :: rows[i].customer == id && Some(rows[i].phone) == phone
  }

  lemma {:induction false} SelectedPhones(db: Database, ids: seq<CustomerId>, phone: Phone)
    ensures (exists i | 0 <= i < |Selected(db, ids)| :: Selected(db, ids)[i].phone == phone)
            <==> exists n | 0 <= n < |ids| :: CanBeReached(db, ids[n]) && db.customers[ids[n]].phone == Some(phone)
  {
    if ids != [] {
      var before, last := ids[..|ids| - 1], ids[|ids| - 1];
      SelectedPhones(db, before, phone);
      var rows, all := Selected(db, before), Selected(db, ids);
      assert forall n | 0 <= n < |before| :: before[n] == ids[n];
      if CanBeReached(db, last) && db.customers[last].phone == Some(phone) {
        if all != rows {
          assert all[|rows|].phone == phone;
        }
      }
      if exists i | 0 <= i < |rows| :: rows[i].phone == phone {
        var i :| 0 <= i < |rows| && rows[i].phone == phone;
        assert all[i].phone == phone;
      }
      if exists n | 0 <= n < |before| :: CanBeReached(db, before[n]) && db.customers[before[n]].phone == Some(phone) {
        var n :| 0 <= n < |before| && CanBeReached(db, before[n]) && db.customers[before[n]].phone == Some(phone);
        assert CanBeReached(db, ids[n]);
      }
    }
  }

  /** Every phone of a customer that can be reached is selected, through the first request that has it. */
  lemma {:induction false} SelectedIff(db: Database, ids: seq<CustomerId>, n: nat)
    requires n < |ids|
    ensures FirstForPhone(db, ids, n) ==> IsSelected(Selected(db, ids), ids[n], db.customers[ids[n]].phone)
  {
    var before, last := ids[..|ids| - 1], ids[|ids| - 1];
    var rows, all := Selected(db, before), Selected(db, ids);
    if FirstForPhone(db, ids, n) {
      if n == |before| {
        SelectedPhones(db, before, db.customers[last].phone.value);
        assert forall m | 0 <= m < |before| :: before[m] == ids[m];
        assert all[|rows|].customer == last;
      } else {
        assert forall m | 0 <= m <= n :: before[m] == ids[m];
        SelectedIff(db, before, n);
        var i :| 0 <= i < |rows| && rows[i].customer == ids[n] && Some(rows[i].phone) == db.customers[ids[n]].phone;
        assert all[i] == rows[i];
      }
    }
  }

  /** And nothing else is: each row is the first request for its phone, with the phone the customer has. */
  lemma {:induction false} SelectedOnly(db: Database, ids: seq<CustomerId>, i: nat)
    requires i < |Selected(db, ids)|
    ensures exists n | 0 <= n < |ids| ::
              && FirstForPhone(db, ids, n) && Selected(db, ids)[i].customer == ids[n]
              && Some(Selected(db, ids)[i].phone) == db.customers[ids[n]].phone
  {
    var before, last := ids[..|ids| - 1], ids[|ids| - 1];
    var rows := Selected(db, before);
    assert forall m | 0 <= m < |before| :: before[m] == ids[m];
    if i < |rows| {
      SelectedOnly(db, before, i);
      var n :| 0 <= n < |before| && FirstForPhone(db, before, n) && rows[i].customer == before[n]
               && Some(rows[i].phone) == db.customers[before[n]].phone;
      assert FirstForPhone(db, ids, n);
    } else {
      SelectedPhones(db, before, db.customers[last].phone.value);
      assert FirstForPhone(db, ids, |before|);
    }
  }

  // ---- The life of a token ----

  /** With nothing else changed, a token confirms for ten minutes and no longer. */
  lemma TokenLivesTenMinutes(db: Database, version: nat, checks: Checks, token: Uuid, now: Time, command: Uuid,
                             actor: UserId, later: Time)
    requires DraftAt(db, version) && ValidSnapshot(db, checks, now) && ValidSnapshot(db, checks, later)
    requires ConsentEvents(db, later) == ConsentEvents(db, now) && !CommandExists(db, command)
    ensures Validate(db, version, checks, token, now).Some?
    ensures var validated := Validate(db, version, checks, token, now).value;
            Confirm(validated, command, version, token, checks, actor, later).Some?
            <==> later - now <= 10 * 60 * 1_000_000
  {
    var validated := Validate(db, version, checks, token, now).value;
    SameEligibility(db, validated, later);
  }

  lemma SameEligibility(db: Database, after: Database, now: Time)
    requires after == db.(broadcast := after.broadcast, audits := after.audits)
    ensures AllEligible(after, now) <==> AllEligible(db, now)
    ensures AllEligible(db, now) ==> ConsentEvents(after, now) == ConsentEvents(db, now)
    ensures Selections(after) == Selections(db)
  {
    assert forall i | 0 <= i < |db.recipients| ::
        Eligible(after, db.recipients[i], now) <==> Eligible(db, db.recipients[i], now);
  }

  // ---- Claims ----

  /** Ready, offered by the reader, and not locked by another transaction. */
  predicate CanBeClaimed(db: Database, candidates: seq<Candidate>, locked: set<RecipientId>, i: nat) {
    && i < |db.recipients| && db.recipients[i].status == RecipientStatus.Ready && i !in locked
    && exists n | 0 <= n < |candidates| :: candidates[n].recipient == i
  }

  lemma {:induction false} ReadyTakesFirst(recipients: seq<Recipient>, start: nat, limit: nat, locked: set<RecipientId>,
                                           i: nat)
    requires start <= i < |recipients| && recipients[i].status == RecipientStatus.Ready && i !in locked
    requires i !in ReadyFrom(recipients, start, limit, locked)
    ensures |ReadyFrom(recipients, start, limit, locked)| == limit
    ensures forall id | id in ReadyFrom(recipients, start, limit, locked) :: id < i
    decreases |recipients| - start
  {
    if limit > 0 {
      if recipients[start].status == RecipientStatus.Ready && start !in locked {
        var rest := ReadyFrom(recipients, start + 1, limit - 1, locked);
        assert ReadyFrom(recipients, start, limit, locked) == [start] + rest;
        assert i != start;
        ReadyTakesFirst(recipients, start + 1, limit - 1, locked, i);
      } else {
        ReadyTakesFirst(recipients, start + 1, limit, locked, i);
      }
    }
  }

  /** A claim takes only recipients that can be claimed, one batch at most, and the lowest of them. */
  lemma ClaimTakesLowest(db: Database, candidates: seq<Candidate>, locked: set<RecipientId>)
    ensures var ids := Claimable(db, candidates, locked);
            && |ids| <= db.settings.batchSize
            && (forall id | id in ids :: CanBeClaimed(db, candidates, locked, id))
            && (forall i | CanBeClaimed(db, candidates, locked, i) && i !in ids ::
                  |ids| == db.settings.batchSize && forall id | id in ids :: id < i)
  {
    var ids := Claimable(db, candidates, locked);
    var others := set id: RecipientId | id < |db.recipients| && !IsCandidate(candidates, id);
    ReadyAvoids(db.recipients, 0, db.settings.batchSize, locked + others);
    forall id | id in ids ensures CanBeClaimed(db, candidates, locked, id) {
      var n :| 0 <= n < |ids| && ids[n] == id;
      assert id !in locked + others;
    }
    forall i | CanBeClaimed(db, candidates, locked, i) && i !in ids
      ensures |ids| == db.settings.batchSize && forall id | id in ids :: id < i
    {
      assert IsCandidate(candidates, i) && i !in locked + others;
      ReadyTakesFirst(db.recipients, 0, db.settings.batchSize, locked + others, i);
    }
  }

  // ---- Preparing ----

  /** The customer is live and still has the phone, and the newest event in force for both is an opt-in. */
  ghost predicate MayBeWrittenTo(db: Database, r: Recipient, now: Time) {
    && r.customer in db.customers && db.customers[r.customer] == Customer(Some(r.phone), false)
    && exists i | 0 <= i < |db.consents| :: db.consents[i].decision == Consent.OptIn && NewestInForce(db, r, now, i)
  }

  /** In force, and no other event in force takes effect later, or at the same time and recorded later. */
  predicate NewestInForce(db: Database, r: Recipient, now: Time, i: nat) {
    && InForceAt(db, r, now, i)
    && forall j | 0 <= j < |db.consents| && InForceAt(db, r, now, j) ::
         db.consents[j].effectiveAt < db.consents[i].effectiveAt
         || (db.consents[j].effectiveAt == db.consents[i].effectiveAt && j <= i)
  }

  predicate InForceAt(db: Database, r: Recipient, now: Time, i: nat) {
    && i < |db.consents| && db.consents[i].key.customer == r.customer && db.consents[i].key.phone == r.phone
    && db.consents[i].effectiveAt <= now
  }

  lemma EligibleIff(db: Database, r: Recipient, now: Time)
    ensures Eligible(db, r, now) <==> MayBeWrittenTo(db, r, now)
    ensures Eligible(db, r, now) ==>
              var i := Consent.Current(db.consents, ConsentKey(r), now);
              && i.Some? && i.value < |db.consents| && db.consents[i.value].decision == Consent.OptIn
              && NewestInForce(db, r, now, i.value)
  {
    var key := ConsentKey(r);
    assert forall i: nat | i < |db.consents| :: InForceAt(db, r, now, i) <==> Consent.Applies(db.consents, key, now, i);
    if Eligible(db, r, now) {
      assert NewestInForce(db, r, now, Consent.Current(db.consents, key, now).value);
    }
    if MayBeWrittenTo(db, r, now) {
      var i :| 0 <= i < |db.consents|
               && db.consents[i].decision == Consent.OptIn && NewestInForce(db, r, now, i);
      assert Consent.Current(db.consents, key, now) == Some(i);
    }
  }

  predicate IsBlockedFor(db: Database, after: Prepared, id: RecipientId, reason: BlockReason)
    requires id < |db.recipients|
  {
    && after.Skip? && id < |after.db.recipients|
    && after.db.recipients[id].status == RecipientStatus.Blocked && after.db.recipients[id].reason == Some(reason)
    && after.db.recipients[id].claimToken == None && after.db.recipients[id].claimedAt == None
    && after.db.recipients[id].messages == db.recipients[id].messages
    && |after.db.recipients| == |db.recipients|
    && (forall i | 0 <= i < |db.recipients| && i != id :: after.db.recipients[i] == db.recipients[i])
    && after.db == db.(recipients := after.db.recipients, audits := db.audits + [Audit(AuditKind.Blocked, None, 0)])
  }

  /** Exactly one of four things happens to a recipient in progress, and each has its own cause. */
  lemma PreparedIff(db: Database, id: RecipientId, templateAvailable: bool, now: Time)
    requires id < |db.recipients| && db.recipients[id].status == RecipientStatus.InProgress
    requires db.broadcast.startedBy.Some?
    ensures var r, prepared := db.recipients[id], PrepareDispatch(db, id, templateAvailable, now);
            var lastIsPending := r.messages != [] && r.messages[|r.messages| - 1].dispatch == DispatchState.Pending;
            && (IsBlockedFor(db, prepared, id, TemplateUnavailable) <==> !templateAvailable)
            && (IsBlockedFor(db, prepared, id, ConsentOrPhoneChanged)
                <==> templateAvailable && !MayBeWrittenTo(db, r, now))
            && (IsBlockedFor(db, prepared, id, AttemptAlreadyExists)
                <==> templateAvailable && MayBeWrittenTo(db, r, now) && !(lastIsPending && r.conversation.Some?))
            && (prepared.Dispatch?
                <==> templateAvailable && MayBeWrittenTo(db, r, now) && lastIsPending && r.conversation.Some?)
            && (prepared.Dispatch? ==>
                  && prepared.db == db && prepared.plan.recipient == id
                  && prepared.plan.input.sentBy == db.broadcast.startedBy.value
                  && Some(prepared.plan.input.conversation) == r.conversation
                  && prepared.plan.input.clientId == r.messages[|r.messages| - 1].row.clientId)
  {
    EligibleIff(db, db.recipients[id], now);
  }

  /** A recipient that is not in progress is passed over. */
  lemma NotInProgressIsSkipped(db: Database, id: RecipientId, templateAvailable: bool, now: Time)
    requires id >= |db.recipients| || db.recipients[id].status != RecipientStatus.InProgress
    ensures PrepareDispatch(db, id, templateAvailable, now) == Skip(db)
  {
  }

  // ---- Starting ----

  /** A dispatch starts exactly for the latest, pending message of a claimed recipient who may be written to. */
  lemma StartIff(db: Database, ref: MessageRef, now: Time)
    requires ref.recipient < |db.recipients| && ref.rank < |db.recipients[ref.recipient].messages|
    ensures var r := db.recipients[ref.recipient];
            var m := r.messages[ref.rank];
            var allowed := && MayBeWrittenTo(db, r, now) && r.status == RecipientStatus.InProgress
                           && ref.rank == |r.messages| - 1
                           && r.conversation == Some(m.row.conversation)
                           && m.row.conversation in db.conversations
                           && db.conversations[m.row.conversation].customer == Some(r.customer);
            && (StartDispatch(db, ref, now).Handed? <==> allowed && m.dispatch == DispatchState.Pending)
            && (allowed && m.dispatch != DispatchState.Pending ==> StartDispatch(db, ref, now) == NotStarted(db))
            && (!allowed ==>
                  && StartDispatch(db, ref, now).NotStarted?
                  && IsBlockedFor(db, Skip(StartDispatch(db, ref, now).db), ref.recipient, ConsentOrPhoneChanged))
  {
    EligibleIff(db, db.recipients[ref.recipient], now);
  }

  // ---- Retrying ----

  /** A request is served exactly for a failed recipient whose latest message failed and who may be written to. */
  lemma RetryableIff(db: Database, request: RetryRequest)
    ensures Retryable(db, request)
            <==> && request.recipient < |db.recipients|
                 && var r := db.recipients[request.recipient];
                 && r.status == RecipientStatus.Failed && r.messages != [] && r.conversation.Some?
                 && (r.messages[|r.messages| - 1].dispatch == DispatchState.DefinitiveFailed
                     || r.messages[|r.messages| - 1].provider == Some(ProviderState.Failed))
                 && MayBeWrittenTo(db, r, request.judgedAt)
  {
    if request.recipient < |db.recipients| {
      EligibleIff(db, db.recipients[request.recipient], request.judgedAt);
    }
  }

  predicate Requested(db: Database, requests: seq<RetryRequest>, i: RecipientId) {
    exists n | 0 <= n < |requests| :: requests[n].recipient == i && Retryable(db, requests[n])
  }

  /** Serving a request adds one pending message of the actor's under the requested id, after the failed one. */
  predicate Resent(was: Recipient, r: Recipient, request: RetryRequest, actor: UserId) {
    && r.status == RecipientStatus.Ready && r.reason == None && r.claimToken == None && r.claimedAt == None
    && |r.messages| == |was.messages| + 1 && r.messages[..|was.messages|] == was.messages
    && var m := r.messages[|was.messages|];
    && m.dispatch == DispatchState.Pending && m.externalId == None && m.provider == None
    && m.row.clientId == request.clientId && m.row.sentBy == actor
    && Some(m.row.conversation) == was.conversation && m.row.retryOf == Some(|was.messages| - 1)
    && r.customer == was.customer && r.phone == was.phone && r.conversation == was.conversation
  }

  lemma ServedIsResent(db: Database, request: RetryRequest, actor: UserId, now: Time)
    requires Retryable(db, request)
    ensures var after, i := RetryOne(db, request, actor, now), request.recipient;
            && |after.recipients| == |db.recipients|
            && after == db.(recipients := db.recipients[i := after.recipients[i]])
            && Resent(db.recipients[i], after.recipients[i], request, actor)
  {
  }

  predicate ServedBy(db: Database, request: RetryRequest, actor: UserId, i: RecipientId, r: Recipient)
    requires i < |db.recipients|
  {
    request.recipient == i && Retryable(db, request) && Resent(db.recipients[i], r, request, actor)
  }

  /** Of all requests exactly those recipients get a new message for whom one of them can be served. */
  lemma {:induction false} RetryServesIff(db: Database, requests: seq<RetryRequest>, actor: UserId, now: Time,
                                          i: RecipientId)
    requires i < |db.recipients|
    ensures SameApart(db, RetryAll(db, requests, actor, now).db)
    ensures var r := RetryAll(db, requests, actor, now).db.recipients[i];
            if Requested(db, requests, i)
            then exists n | 0 <= n < |requests| :: ServedBy(db, requests[n], actor, i, r)
            else r == db.recipients[i]
  {
    if requests != [] {
      var shorter, request := requests[..|requests| - 1], requests[|requests| - 1];
      RetryServesIff(db, shorter, actor, now, i);
      var before := RetryAll(db, shorter, actor, now).db;
      MoreRequests(db, requests, i);
      if Requested(db, shorter, i) {
        var n :| 0 <= n < |shorter| && ServedBy(db, shorter[n], actor, i, before.recipients[i]);
        assert ServedBy(db, requests[n], actor, i, before.recipients[i]);
      }
      NextRequest(db, before, request, actor, now, i);
    }
  }

  predicate SameApart(db: Database, after: Database) {
    |after.recipients| == |db.recipients| && after == db.(recipients := after.recipients)
  }

  lemma MoreRequests(db: Database, requests: seq<RetryRequest>, i: RecipientId)
    requires requests != []
    ensures var shorter, request := requests[..|requests| - 1], requests[|requests| - 1];
            Requested(db, requests, i)
            <==> Requested(db, shorter, i) || (request.recipient == i && Retryable(db, request))
  {
    var shorter := requests[..|requests| - 1];
    assert forall n | 0 <= n < |shorter| :: shorter[n] == requests[n];
    if Requested(db, shorter, i) {
      var n :| 0 <= n < |shorter| && shorter[n].recipient == i && Retryable(db, shorter[n]);
      assert requests[n].recipient == i;
    }
  }

  /** A recipient already served is ready, so a later request for it is passed over. */
  lemma NextRequest(db: Database, before: Database, request: RetryRequest, actor: UserId, now: Time, i: RecipientId)
    requires i < |db.recipients| && SameApart(db, before)
    requires before.recipients[i] == db.recipients[i] || before.recipients[i].status == RecipientStatus.Ready
    ensures var after := if Retryable(before, request) then RetryOne(before, request, actor, now) else before;
            && SameApart(db, after)
            && (request.recipient == i && Retryable(db, request) && before.recipients[i] == db.recipients[i]
                ==> ServedBy(db, request, actor, i, after.recipients[i]))
            && ((request.recipient == i && Retryable(db, request)) || after.recipients[i] == before.recipients[i])
            && (before.recipients[i].status == RecipientStatus.Ready ==> after.recipients[i] == before.recipients[i])
  {
    if request.recipient == i {
      SameRetryable(db, before, request);
    }
    if Retryable(before, request) {
      ServedIsResent(before, request, actor, now);
    }
  }

  lemma SameRetryable(db: Database, before: Database, request: RetryRequest)
    requires request.recipient < |db.recipients| == |before.recipients|
             && before == db.(recipients := before.recipients)
    ensures before.recipients[request.recipient] == db.recipients[request.recipient] ==>
              (Retryable(before, request) <==> Retryable(db, request))
  {
  }

  // ---- Completing ----

  /** A broadcast completes exactly when no recipient is ready or in progress. */
  lemma CompletesIff(db: Database, now: Time)
    ensures var idle := forall i | 0 <= i < |db.recipients| ::
                          db.recipients[i].status != RecipientStatus.Ready
                          && db.recipients[i].status != RecipientStatus.InProgress;
            var after := CompleteIfIdle(db, now);
            && (!idle ==> after == db)
            && (idle ==>
                  && after.broadcast.status == BroadcastStatus.Completed && after.broadcast.lastCompletedAt == Some(now)
                  && after.broadcast.firstCompletedAt == (if db.broadcast.firstCompletedAt == None then Some(now)
                                                          else db.broadcast.firstCompletedAt)
                  && after.audits == db.audits + [Audit(AuditKind.Completed, None, 0)]
                  && after == db.(broadcast := after.broadcast, audits := after.audits)
                  && after.broadcast == db.broadcast.(status := after.broadcast.status,
                                                      firstCompletedAt := after.broadcast.firstCompletedAt,
                                                      lastCompletedAt := after.broadcast.lastCompletedAt))
  {
    CountZeroIff(db.recipients);
  }

  lemma {:induction false} CountZeroIff(recipients: seq<Recipient>)
    ensures RemainingCount(recipients) == 0
            <==> forall i | 0 <= i < |recipients| ::
                   recipients[i].status != RecipientStatus.Ready && recipients[i].status != RecipientStatus.InProgress
  {
    if recipients != [] {
      var before := recipients[..|recipients| - 1];
      CountZeroIff(before);
      assert forall i | 0 <= i < |before| :: before[i] == recipients[i];
    }
  }

  // ---- Commands ----

  /** A command that left its audit is done: repeating any of them changes nothing. */
  lemma DoneIsDone(db: Database, command: Uuid, ids: seq<CustomerId>, version: nat, token: Uuid, checks: Checks,
                   actor: UserId, now: Time, requests: seq<RetryRequest>, candidates: seq<Candidate>,
                   locked: set<RecipientId>)
    requires exists i | 0 <= i < |db.audits| :: db.audits[i].command == Some(command)
    ensures ids != [] ==> ReplaceRecipients(db, command, ids, version) == Some(db)
    ensures Confirm(db, command, version, token, checks, actor, now) == Some(db)
    ensures Launch(db, command, actor) == Some(db)
    ensures requests != [] ==> RetryFailed(db, command, requests, actor, checks.templateAvailable, now) == Some(db)
    ensures ClaimRecipients(db, command, candidates, now, locked) == Some(ClaimResult(db, []))
  {
  }
}
