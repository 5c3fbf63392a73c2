/**
 When a process_batch call does not raise: exactly when its command and its client ids are right, the
 conversations of its batch are available, and every message it would send is admitted.
 */
module SingleWorkerProgress {
  import opened Wrappers
  import opened BroadcastModel
  import opened BroadcastTransactions
  import opened BroadcastInvariant
  import opened SingleWorker
  import Payload

  // ---- Linking conversations ----

  /** A conversation there is stays; one that is missing is created for the customer. */
  predicate LinkedAs(conversations: map<Phone, Conversation>, linked: map<Phone, Conversation>, r: Recipient) {
    r.phone in linked
    && linked[r.phone] == if r.phone in conversations then conversations[r.phone]
                          else Conversation(Some(r.customer), true, false)
  }

  function Link(conversations: map<Phone, Conversation>, r: Recipient): map<Phone, Conversation> {
    if r.phone in conversations then conversations
    else conversations[r.phone := Conversation(Some(r.customer), true, false)]
  }

  /** Recipients in id order, so without repetition. */
  predicate InOrder(recipients: seq<Recipient>, ids: seq<RecipientId>) {
    && (forall n | 0 <= n < |ids| :: ids[n] < |recipients|)
    && (forall m, n | 0 <= m < n < |ids| :: ids[m] < ids[n])
  }

  lemma InOrderRest(recipients: seq<Recipient>, ids: seq<RecipientId>)
    requires InOrder(recipients, ids) && ids != []
    ensures InOrder(recipients, ids[1..]) && ids == [ids[0]] + ids[1..]
    ensures forall id | id in ids[1..] :: ids[0] < id < |recipients|
  {
  }

  /** Linking goes through exactly when each conversation is available beforehand. */
  lemma {:induction false} LinkAllIff(conversations: map<Phone, Conversation>, recipients: seq<Recipient>,
                                      ids: seq<RecipientId>)
    requires PhonesDistinct(recipients) && InOrder(recipients, ids)
    ensures LinkAll(conversations, recipients, ids).Some?
            <==> forall id | id in ids :: ConversationAvailable(conversations, recipients[id])
    ensures LinkAll(conversations, recipients, ids).Some? ==>
              forall i | 0 <= i < |recipients| && (i in ids || recipients[i].phone in conversations) ::
                LinkedAs(conversations, LinkAll(conversations, recipients, ids).value, recipients[i])
    decreases |ids|
  {
    if ids != [] {
      InOrderRest(recipients, ids);
      LinkAllIff(Link(conversations, recipients[ids[0]]), recipients, ids[1..]);
    }
  }

  // ---- Dispatching ----

  /** What the message service refuses: payload, sender, or a hidden conversation. */
  predicate Deliverable(db: Database, r: Recipient) {
    && Payload.Replayable(db.broadcast.template)
    && db.broadcast.startedBy.Some? && db.broadcast.startedBy.value in db.activeUsers
    && (r.messages != [] ==> db.broadcast.startedBy == Some(Latest(r).row.sentBy))
    && (r.phone in db.conversations ==> !db.conversations[r.phone].hidden)
  }

  /** A recipient that is not blocked beforehand must be deliverable. */
  predicate Passes(db: Database, r: Recipient, call: Call) {
    call.templateAvailable && Eligible(db, r, call.now) ==> Deliverable(db, r)
  }

  predicate Dispatchable(db: Database, id: RecipientId) {
    && id < |db.recipients| && ClaimedNow(db.recipients[id])
    && var r := db.recipients[id];
    && r.conversation == Some(r.phone) && r.phone in db.conversations
    && db.conversations[r.phone].customer == Some(r.customer) && db.conversations[r.phone].resolved
  }

  /** The rebuilt payload of a recipient's latest message passes exactly when it is the starter's and replays. */
  lemma LatestReplaysIff(db: Database, id: RecipientId)
    requires DatabaseInv(db) && id < |db.recipients| && db.recipients[id].messages != [] && db.broadcast.startedBy.Some?
    ensures var r := db.recipients[id];
            var row := Latest(r).row;
            Payload.Replays(row, Payload.PlannedInput(db.broadcast.template, id, r.phone, row.clientId,
                                                      db.broadcast.startedBy.value, row.retryOf))
            <==> Payload.Replayable(db.broadcast.template) && row.sentBy == db.broadcast.startedBy.value
  {
    var r := db.recipients[id];
    assert RecipientInv(db.broadcast, id, r);
    var row := r.messages[|r.messages| - 1].row;
    assert row == Payload.StoredRow(db.broadcast.template, id, r.phone, row.clientId, row.sentBy, row.retryOf);
    Payload.ReplaysIff(db.broadcast.template, id, r.phone, row.clientId, row.sentBy, db.broadcast.startedBy.value,
                       row.retryOf);
  }

  /** A plan is admitted exactly when the recipient is deliverable. */
  lemma PlanAdmittedIff(db: Database, id: RecipientId, templateAvailable: bool, now: Time)
    requires DatabaseInv(db) && Dispatchable(db, id)
    requires PrepareDispatch(db, id, templateAvailable, now).Dispatch?
    ensures Admits(db, PrepareDispatch(db, id, templateAvailable, now).plan, LatestRef(db, id))
            <==> Deliverable(db, db.recipients[id])
  {
    LatestReplaysIff(db, id);
  }

  lemma PreparedIff(db: Database, id: RecipientId, templateAvailable: bool, now: Time)
    requires DatabaseInv(db) && Dispatchable(db, id) && db.broadcast.startedBy.Some?
    ensures var prepared := PrepareDispatch(db, id, templateAvailable, now);
            !prepared.Raises? && (prepared.Dispatch? <==> templateAvailable && Eligible(db, db.recipients[id], now))
  {
  }

  lemma DispatchOneIff(db: Database, id: RecipientId, call: Call)
    requires DatabaseInv(db) && Dispatchable(db, id) && db.broadcast.startedBy.Some?
    ensures DispatchOne(db, id, call).Some? <==> Passes(db, db.recipients[id], call)
  {
    PreparedIff(db, id, call.templateAvailable, call.now);
    if PrepareDispatch(db, id, call.templateAvailable, call.now).Dispatch? {
      PlanKeepsDatabase(db, id, call.templateAvailable, call.now);
      PlanAdmittedIff(db, id, call.templateAvailable, call.now);
    }
  }

  /** What a dispatch leaves as it was. */
  predicate SameWorld(db: Database, after: Database) {
    && after.broadcast == db.broadcast && after.conversations == db.conversations && after.activeUsers == db.activeUsers
    && after.customers == db.customers && after.consents == db.consents
  }

  lemma PrepareStays(db: Database, id: RecipientId, templateAvailable: bool, now: Time)
    ensures var prepared := PrepareDispatch(db, id, templateAvailable, now);
            prepared.Skip? ==> SameWorld(db, prepared.db)
  {
  }

  lemma SendingStays(db: Database, ref: MessageRef, call: Call)
    requires ValidRef(db, ref)
    ensures SameWorld(db, AfterSending(db, ref, call))
  {
  }

  lemma DispatchOneStays(db: Database, id: RecipientId, call: Call)
    requires DispatchOne(db, id, call).Some?
    ensures SameWorld(db, DispatchOne(db, id, call).value)
  {
    PrepareStays(db, id, call.templateAvailable, call.now);
    DispatchOneCases(db, id, call);
    if !PrepareDispatch(db, id, call.templateAvailable, call.now).Skip? {
      SendingStays(db, LatestRef(db, id), call);
    }
  }

  predicate AllDispatchable(db: Database, ids: seq<RecipientId>) {
    forall id | id in ids :: Dispatchable(db, id)
  }

  predicate AllPass(db: Database, ids: seq<RecipientId>, call: Call)
    requires AllDispatchable(db, ids)
  {
    forall id | id in ids :: Passes(db, db.recipients[id], call)
  }

  lemma OneDispatched(db: Database, after: Database, ids: seq<RecipientId>, call: Call)
    requires ids != [] && InOrder(db.recipients, ids) && AllDispatchable(db, ids)
    requires SameWorld(db, after) && Settles(db, after, ids[0])
    ensures InOrder(after.recipients, ids[1..]) && AllDispatchable(after, ids[1..])
    ensures AllPass(db, ids, call) <==> Passes(db, db.recipients[ids[0]], call) && AllPass(after, ids[1..], call)
  {
    InOrderRest(db.recipients, ids);
    forall id | id in ids[1..] ensures after.recipients[id] == db.recipients[id] && Dispatchable(db, id) {
      assert id in ids && id != ids[0];
    }
    forall id | id in ids[1..]
      ensures Passes(after, after.recipients[id], call) <==> Passes(db, db.recipients[id], call)
    {
    }
  }

  lemma {:induction false} DispatchAllIff(db: Database, ids: seq<RecipientId>, call: Call)
    requires DatabaseInv(db) && db.broadcast.startedBy.Some? && InOrder(db.recipients, ids) && AllDispatchable(db, ids)
    ensures DispatchAll(db, ids, call).Some? <==> AllPass(db, ids, call)
    decreases |ids|
  {
    if ids != [] {
      DispatchOneIff(db, ids[0], call);
      if DispatchOne(db, ids[0], call).Some? {
        DispatchOneStays(db, ids[0], call);
        DispatchOneSettles(db, ids[0], call);
        var after := DispatchOne(db, ids[0], call).value;
        OneDispatched(db, after, ids, call);
        DispatchAllIff(after, ids[1..], call);
      } else {
        assert ids[0] in ids;
      }
    }
  }

  // ---- The whole call ----

  predicate BatchAvailable(db: Database, ids: seq<RecipientId>)
    requires InOrder(db.recipients, ids)
  {
    forall id | id in ids :: ConversationAvailable(db.conversations, db.recipients[id])
  }

  lemma ClaimIff(db: Database, command: Uuid, candidates: seq<Candidate>, now: Time)
    requires DatabaseInv(db) && db.broadcast.status.Processing? && !CommandExists(db, command)
    ensures ClaimRecipients(db, command, candidates, now, {}).Some?
            <==> BatchAvailable(db, Claimable(db, candidates, {}))
  {
    LinkAllIff(db.conversations, db.recipients, Claimable(db, candidates, {}));
  }

  /** A claimed recipient can be dispatched, and passes exactly when it did before the claim. */
  lemma ClaimedPassesIff(db: Database, call: Call, candidates: seq<Candidate>, i: RecipientId)
    requires DatabaseInv(db) && db.broadcast.status.Processing? && !CommandExists(db, call.command)
    requires ClaimRecipients(db, call.command, candidates, call.now, {}).Some? && i in Claimable(db, candidates, {})
    ensures var claimed := ClaimRecipients(db, call.command, candidates, call.now, {}).value.db;
            && Dispatchable(claimed, i)
            && (Passes(claimed, claimed.recipients[i], call) <==> Passes(db, db.recipients[i], call))
  {
    var claimed := ClaimRecipients(db, call.command, candidates, call.now, {}).value.db;
    TakenRecipient(db, call.command, candidates, call.now, i);
    ClaimIff(db, call.command, candidates, call.now);
    ClaimedWorld(db, call.command, candidates, call.now, i);
    PassesLinked(db, claimed, i, call);
  }

  /** What a claim changes around a recipient of its batch: only its conversation may be new. */
  lemma ClaimedWorld(db: Database, command: Uuid, candidates: seq<Candidate>, now: Time, i: RecipientId)
    requires DatabaseInv(db) && db.broadcast.status.Processing? && !CommandExists(db, command)
    requires ClaimRecipients(db, command, candidates, now, {}).Some? && i in Claimable(db, candidates, {})
    ensures i < |db.recipients| && ClaimedAround(db, ClaimRecipients(db, command, candidates, now, {}).value.db, i)
  {
    LinkAllIff(db.conversations, db.recipients, Claimable(db, candidates, {}));
  }

  predicate ClaimedAround(db: Database, claimed: Database, i: RecipientId)
    requires i < |db.recipients|
  {
    && claimed.broadcast == db.broadcast && claimed.activeUsers == db.activeUsers
    && claimed.customers == db.customers && claimed.consents == db.consents
    && LinkedAs(db.conversations, claimed.conversations, db.recipients[i])
    && ConversationAvailable(db.conversations, db.recipients[i])
  }

  lemma PassesLinked(db: Database, claimed: Database, i: RecipientId, call: Call)
    requires i < |db.recipients| && i < |claimed.recipients| && ClaimedAround(db, claimed, i)
    requires ClaimedNow(claimed.recipients[i]) && ClaimKept(db, i, claimed.recipients[i])
    ensures Dispatchable(claimed, i)
    ensures Passes(claimed, claimed.recipients[i], call) <==> Passes(db, db.recipients[i], call)
  {
  }

  lemma ClaimedDispatchIff(db: Database, call: Call, candidates: seq<Candidate>)
    requires DatabaseInv(db) && db.broadcast.status.Processing? && !CommandExists(db, call.command)
    requires ClaimRecipients(db, call.command, candidates, call.now, {}).Some?
    ensures var claim := ClaimRecipients(db, call.command, candidates, call.now, {}).value;
            DispatchAll(claim.db, claim.ids, call).Some?
            <==> forall id | id in Claimable(db, candidates, {}) :: Passes(db, db.recipients[id], call)
  {
    var claim := ClaimRecipients(db, call.command, candidates, call.now, {}).value;
    ClaimKeeps(db, call.command, candidates, call.now, {});
    forall id | id in claim.ids
      ensures Dispatchable(claim.db, id)
      ensures Passes(claim.db, claim.db.recipients[id], call) <==> Passes(db, db.recipients[id], call)
    {
      ClaimedPassesIff(db, call, candidates, id);
    }
    DispatchAllIff(claim.db, claim.ids, call);
  }

  /** The call can be made: its command is new and it brings as many client ids as the read finds recipients. */
  predicate Callable(db: Database, call: Call) {
    && !CommandExists(db, call.command)
    && |call.clientIds| == |ReadyFrom(db.recipients, 0, 2 * db.settings.batchSize, {})|
  }

  /** Every recipient of the batch can be linked, and each that is not blocked can be delivered to. */
  predicate BatchPasses(db: Database, call: Call) {
    forall id | id in ReadyFrom(db.recipients, 0, db.settings.batchSize, {}) ::
      ConversationAvailable(db.conversations, db.recipients[id]) && Passes(db, db.recipients[id], call)
  }

  /** Exactly when a call does not raise. */
  lemma CallGoesIff(db: Database, call: Call)
    requires DatabaseInv(db) && Quiet(db.recipients) && db.broadcast.status.Processing?
    ensures ProcessBatch(db, call).Some? <==> Callable(db, call) && BatchPasses(InWorld(db, call), call)
  {
    var world := InWorld(db, call);
    WorldKeeps(db, call);
    NothingRecovered(world, call.now);
    if Callable(db, call) {
      var candidates := Candidates(world, call.clientIds);
      ClaimsOneBatch(world, call.clientIds);
      ClaimIff(world, call.command, candidates, call.now);
      if ClaimRecipients(world, call.command, candidates, call.now, {}).Some? {
        ClaimedDispatchIff(world, call, candidates);
      }
    }
  }

  // ---- A world in which every call goes through ----

  predicate StarterReady(db: Database) {
    Payload.Replayable(db.broadcast.template) && db.broadcast.startedBy.Some?
    && db.broadcast.startedBy.value in db.activeUsers
  }

  /** The conversation of a recipient, if there is one, can be replied to for its customer. */
  predicate Welcome(conversations: map<Phone, Conversation>, r: Recipient) {
    r.phone in conversations ==>
      var c := conversations[r.phone];
      c.customer == Some(r.customer) && c.resolved && !c.hidden
  }

  /** The pending message of a recipient is the starter's. */
  predicate StartersMessage(b: Broadcast, r: Recipient) {
    r.messages != [] ==> b.startedBy == Some(Latest(r).row.sentBy)
  }

  predicate Benign(db: Database, call: Call) {
    && StarterReady(InWorld(db, call)) && Callable(db, call)
    && forall i | 0 <= i < |db.recipients| && db.recipients[i].status.Ready? ::
         Welcome(call.conversations, db.recipients[i]) && StartersMessage(db.broadcast, db.recipients[i])
  }

  /** In a benign world a call of a worker alone goes through. */
  lemma CallGoesThrough(db: Database, call: Call)
    requires DatabaseInv(db) && Quiet(db.recipients) && db.broadcast.status.Processing? && Benign(db, call)
    ensures ProcessBatch(db, call).Some?
  {
    CallGoesIff(db, call);
    forall id | id in ReadyFrom(db.recipients, 0, db.settings.batchSize, {}) ensures db.recipients[id].status.Ready? {
    }
  }

  /** So does every call of a series, as long as each finds a benign world and something is left to do. */
  lemma BenignCallSettlesOneBatch(db: Database, call: Call)
    requires BetweenCalls(db) && RemainingCount(db.recipients) > 0 && Benign(db, call)
    ensures ProcessBatch(db, call).Some? && BetweenCalls(ProcessBatch(db, call).value)
    ensures RemainingCount(ProcessBatch(db, call).value.recipients)
         == RemainingCount(db.recipients) - Least(RemainingCount(db.recipients), db.settings.batchSize)
  {
    CallGoesThrough(db, call);
    CallSettlesOneBatch(db, call);
  }
}
