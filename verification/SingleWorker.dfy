/**
 One worker on its own: process_batch as the sequence of its transactions, and how many calls it
 takes to finish a broadcast.
 */
module SingleWorker {
  import opened Wrappers
  import opened BroadcastModel
  import opened BroadcastTransactions
  import opened BroadcastInvariant
  import opened Division
  import Consent

  /** What the world looks like and answers during one call. */
  datatype Call = Call(command: Uuid, clientIds: seq<Uuid>, templateAvailable: bool, answers: RecipientId -> Answer,
                       now: Time, startedAt: Time,
                       customers: map<CustomerId, Customer>, consents: seq<Consent.Event>,
                       conversations: map<Phone, Conversation>, activeUsers: set<UserId>)

  /** What sending an admitted plan leaves behind. */
  function AfterSending(db: Database, ref: MessageRef, call: Call): Database
    requires ValidRef(db, ref)
  {
    match StartDispatch(db, ref, call.startedAt)
    case NotStarted(blocked) => blocked
    case Handed(started) => ReconcileAnswer(started, ref, call.answers(ref.recipient), call.now)
  }

  /** The whole way of one claimed recipient; `None` when a transaction raises. */
  function DispatchOne(db: Database, id: RecipientId, call: Call): Option<Database> {
    match PrepareDispatch(db, id, call.templateAvailable, call.now)
    case Raises => None
    case Skip(after) => Some(after)
    case Dispatch(after, plan) => SendPlan(after, id, plan, call)
  }

  function LatestRef(db: Database, id: RecipientId): (ref: MessageRef)
    requires id < |db.recipients| && db.recipients[id].messages != []
    ensures ValidRef(db, ref)
  {
    MessageRef(id, |db.recipients[id].messages| - 1)
  }

  /** A plan that is not admitted raises. */
  function SendPlan(db: Database, id: RecipientId, plan: Plan, call: Call): (after: Option<Database>)
    requires id < |db.recipients| && db.recipients[id].messages != []
    ensures after.Some? <==> Admits(db, plan, LatestRef(db, id))
    ensures after.Some? ==> after.value == AfterSending(db, LatestRef(db, id), call)
  {
    if Admits(db, plan, LatestRef(db, id)) then Some(AfterSending(db, LatestRef(db, id), call)) else None
  }

  function DispatchAll(db: Database, ids: seq<RecipientId>, call: Call): Option<Database>
    decreases |ids|
  {
    if ids == [] then Some(db)
    else
      var after := DispatchOne(db, ids[0], call);
      if after.None? then None else DispatchAll(after.value, ids[1..], call)
  }

  function Candidates(db: Database, clientIds: seq<Uuid>): seq<Candidate>
    requires |clientIds| == |ReadyFrom(db.recipients, 0, 2 * db.settings.batchSize, {})|
  {
    var ready := ReadyFrom(db.recipients, 0, 2 * db.settings.batchSize, {});
    seq(|ready|, i requires 0 <= i < |ready| => Candidate(ready[i], clientIds[i]))
  }

  function InWorld(db: Database, call: Call): Database {
    db.(customers := call.customers, consents := call.consents, conversations := call.conversations,
        activeUsers := call.activeUsers)
  }

  /** One process_batch call; `None` when it raises or replays an earlier command. */
  function ProcessBatch(db: Database, call: Call): Option<Database> {
    AfterRecovery(RecoverStaleClaims(InWorld(db, call), call.now, {}), call)
  }

  function AfterRecovery(recovered: Database, call: Call): Option<Database> {
    if |call.clientIds| != |ReadyFrom(recovered.recipients, 0, 2 * recovered.settings.batchSize, {})| then None
    else if CommandExists(recovered, call.command) then None
    else AfterRead(recovered, Candidates(recovered, call.clientIds), call)
  }

  function AfterRead(db: Database, candidates: seq<Candidate>, call: Call): Option<Database> {
    var claim := ClaimRecipients(db, call.command, candidates, call.now, {});
    if claim.None? then None
    else
      var dispatched := DispatchAll(claim.value.db, claim.value.ids, call);
      if dispatched.None? then None else Some(CompleteIfIdle(dispatched.value, call.now))
  }

  // ---- What a claim takes ----

  function ReadyCount(recipients: seq<Recipient>, start: nat): nat
    requires start <= |recipients|
    decreases |recipients| - start
  {
    if start == |recipients| then 0
    else (if recipients[start].status.Ready? then 1 else 0) + ReadyCount(recipients, start + 1)
  }

  lemma {:induction false} ReadyFromCounts(recipients: seq<Recipient>, start: nat, limit: nat)
    requires start <= |recipients|
    ensures |ReadyFrom(recipients, start, limit, {})|
            == if ReadyCount(recipients, start) < limit then ReadyCount(recipients, start) else limit
    decreases |recipients| - start
  {
    if start < |recipients| && limit > 0 {
      ReadyFromCounts(recipients, start + 1, if recipients[start].status.Ready? then limit - 1 else limit);
    }
  }

  predicate Avoids(ids: seq<RecipientId>, locked: set<RecipientId>) {
    forall id | id in ids :: id !in locked
  }

  lemma ReadyTaken(recipients: seq<Recipient>, start: nat, limit: nat, locked: set<RecipientId>)
    requires start < |recipients| && limit > 0 && recipients[start].status.Ready? && start !in locked
    ensures ReadyFrom(recipients, start, limit, locked) == [start] + ReadyFrom(recipients, start + 1, limit - 1, locked)
  {
  }

  lemma NotReadyPassed(recipients: seq<Recipient>, start: nat, limit: nat, locked: set<RecipientId>)
    requires start < |recipients| && limit > 0 && !recipients[start].status.Ready?
    ensures ReadyFrom(recipients, start, limit, locked) == ReadyFrom(recipients, start + 1, limit, locked)
  {
  }

  lemma AvoidsRest(first: RecipientId, rest: seq<RecipientId>, locked: set<RecipientId>)
    requires Avoids([first] + rest, locked)
    ensures first !in locked && Avoids(rest, locked)
  {
    assert first in [first] + rest;
    assert forall id | id in rest :: id in [first] + rest;
  }

  /** Locks on recipients beyond the first `wide` ready ones do not matter to a narrower take. */
  lemma {:induction false} NarrowTake(recipients: seq<Recipient>, start: nat, wide: nat, narrow: nat,
                                      locked: set<RecipientId>)
    requires start <= |recipients| && narrow <= wide && Avoids(ReadyFrom(recipients, start, wide, {}), locked)
    ensures ReadyFrom(recipients, start, narrow, locked) == ReadyFrom(recipients, start, narrow, {})
    decreases |recipients| - start
  {
    if start < |recipients| && narrow > 0 {
      if recipients[start].status.Ready? {
        ReadyTaken(recipients, start, wide, {});
        AvoidsRest(start, ReadyFrom(recipients, start + 1, wide - 1, {}), locked);
        NarrowTake(recipients, start + 1, wide - 1, narrow - 1, locked);
        ReadyTaken(recipients, start, narrow, locked);
        ReadyTaken(recipients, start, narrow, {});
      } else {
        NotReadyPassed(recipients, start, wide, {});
        NarrowTake(recipients, start + 1, wide, narrow, locked);
        NotReadyPassed(recipients, start, narrow, locked);
        NotReadyPassed(recipients, start, narrow, {});
      }
    }
  }

  lemma ClaimsOneBatch(db: Database, clientIds: seq<Uuid>)
    requires |clientIds| == |ReadyFrom(db.recipients, 0, 2 * db.settings.batchSize, {})|
    ensures Claimable(db, Candidates(db, clientIds), {}) == ReadyFrom(db.recipients, 0, db.settings.batchSize, {})
  {
    var candidates := Candidates(db, clientIds);
    var ready := ReadyFrom(db.recipients, 0, 2 * db.settings.batchSize, {});
    var others := set id: RecipientId | id < |db.recipients| && !IsCandidate(candidates, id);
    forall id | id in ready ensures id !in {} + others {
      var n :| 0 <= n < |ready| && ready[n] == id;
      assert candidates[n].recipient == id;
    }
    NarrowTake(db.recipients, 0, 2 * db.settings.batchSize, db.settings.batchSize, {} + others);
  }

  // ---- What a dispatched recipient leaves behind ----

  predicate Quiet(recipients: seq<Recipient>) {
    forall i | 0 <= i < |recipients| :: !recipients[i].status.InProgress?
  }

  predicate ClaimedNow(r: Recipient) {
    r.status.InProgress? && r.messages != [] && Latest(r).dispatch.Pending?
  }

  /** What one recipient's way through a call leaves behind. */
  predicate Settles(db: Database, after: Database, id: RecipientId) {
    && DatabaseInv(after) && after.broadcast == db.broadcast && after.settings == db.settings
    && |after.recipients| == |db.recipients| && id < |db.recipients|
    && !Remaining(after.recipients[id])
    && after.recipients == db.recipients[id := after.recipients[id]]
  }

  lemma BlockSettles(db: Database, id: RecipientId, reason: BlockReason)
    requires DatabaseInv(db) && id < |db.recipients| && db.recipients[id].messages != []
    ensures Settles(db, BlockRecipient(db, id, reason), id)
  {
    BlockRecipientKeeps(db, id, reason);
  }

  lemma SentSettles(db: Database, ref: MessageRef, call: Call)
    requires DatabaseInv(db) && ValidRef(db, ref) && ref.rank == |db.recipients[ref.recipient].messages| - 1
    requires ClaimedNow(db.recipients[ref.recipient])
    ensures Settles(db, AfterSending(db, ref, call), ref.recipient)
  {
    var started := StartDispatch(db, ref, call.startedAt);
    if started.Handed? {
      StartKeeps(db, ref, call.startedAt);
      HandedSettles(db, started.db, ref, call.answers(ref.recipient), call.now);
    } else {
      BlockSettles(db, ref.recipient, ConsentOrPhoneChanged);
    }
  }

  lemma SkipSettles(db: Database, id: RecipientId, templateAvailable: bool, now: Time)
    requires DatabaseInv(db) && id < |db.recipients| && ClaimedNow(db.recipients[id])
    ensures var prepared := PrepareDispatch(db, id, templateAvailable, now);
            prepared.Skip? ==> Settles(db, prepared.db, id)
  {
    if !templateAvailable {
      BlockSettles(db, id, TemplateUnavailable);
    } else if !Eligible(db, db.recipients[id], now) {
      BlockSettles(db, id, ConsentOrPhoneChanged);
    } else {
      BlockSettles(db, id, AttemptAlreadyExists);
    }
  }

  /** The two ways through: skipped after blocking, or sent. */
  lemma DispatchOneCases(db: Database, id: RecipientId, call: Call)
    requires DispatchOne(db, id, call).Some?
    ensures var prepared := PrepareDispatch(db, id, call.templateAvailable, call.now);
            if prepared.Skip? then DispatchOne(db, id, call).value == prepared.db
            else id < |db.recipients| && db.recipients[id].messages != []
                 && DispatchOne(db, id, call).value == AfterSending(db, LatestRef(db, id), call)
  {
    var prepared := PrepareDispatch(db, id, call.templateAvailable, call.now);
    if prepared.Dispatch? {
      PlanKeepsDatabase(db, id, call.templateAvailable, call.now);
      DispatchSends(db, id, call);
    } else {
      DispatchSkips(db, id, call);
    }
  }

  lemma DispatchSends(db: Database, id: RecipientId, call: Call)
    requires PrepareDispatch(db, id, call.templateAvailable, call.now).Dispatch?
    requires PrepareDispatch(db, id, call.templateAvailable, call.now).db == db
    requires id < |db.recipients| && db.recipients[id].messages != []
    ensures var plan := PrepareDispatch(db, id, call.templateAvailable, call.now).plan;
            DispatchOne(db, id, call) == SendPlan(db, id, plan, call)
  {
  }

  lemma DispatchSkips(db: Database, id: RecipientId, call: Call)
    requires !PrepareDispatch(db, id, call.templateAvailable, call.now).Dispatch? && DispatchOne(db, id, call).Some?
    ensures PrepareDispatch(db, id, call.templateAvailable, call.now).Skip?
    ensures DispatchOne(db, id, call).value == PrepareDispatch(db, id, call.templateAvailable, call.now).db
  {
  }

  lemma PlanKeepsDatabase(db: Database, id: RecipientId, templateAvailable: bool, now: Time)
    requires PrepareDispatch(db, id, templateAvailable, now).Dispatch?
    ensures PrepareDispatch(db, id, templateAvailable, now).db == db && id < |db.recipients|
    ensures db.recipients[id].messages != [] && Latest(db.recipients[id]).dispatch.Pending?
  {
  }

  lemma DispatchOneSettles(db: Database, id: RecipientId, call: Call)
    requires DatabaseInv(db) && id < |db.recipients| && ClaimedNow(db.recipients[id])
    ensures DispatchOne(db, id, call).Some? ==> Settles(db, DispatchOne(db, id, call).value, id)
  {
    if DispatchOne(db, id, call).Some? {
      DispatchOneCases(db, id, call);
      if PrepareDispatch(db, id, call.templateAvailable, call.now).Skip? {
        SkipSettles(db, id, call.templateAvailable, call.now);
      } else {
        SentSettles(db, LatestRef(db, id), call);
      }
    }
  }

  lemma HandedSettles(db: Database, started: Database, ref: MessageRef, answer: Answer, now: Time)
    requires DatabaseInv(started) && ValidRef(started, ref) && MessageAt(started, ref).dispatch.InProgress?
    requires ref.recipient < |db.recipients|
    requires started == WithRecipient(db, ref.recipient, started.recipients[ref.recipient])
    ensures var after := ReconcileAnswer(started, ref, answer, now);
            && DatabaseInv(after) && !Remaining(after.recipients[ref.recipient])
            && after.recipients == db.recipients[ref.recipient := after.recipients[ref.recipient]]
  {
    ReconcileKeeps(started, ref, answer, now);
    assert RecipientInv(started.broadcast, ref.recipient, started.recipients[ref.recipient]);
    ReconcileSound(started.recipients[ref.recipient], ref.rank, answer, now);
  }

  lemma {:induction false} OneFewer(a: seq<Recipient>, i: nat, r: Recipient)
    requires i < |a| && Remaining(a[i]) && !Remaining(r)
    ensures RemainingCount(a[i := r]) == RemainingCount(a) - 1
  {
    var b := a[i := r];
    var last := |a| - 1;
    if i == last {
      assert b[..last] == a[..last];
    } else {
      assert b[..last] == a[..last][i := r];
      OneFewer(a[..last], i, r);
    }
  }

  lemma {:induction false} SameRemaining(a: seq<Recipient>, b: seq<Recipient>)
    requires |a| == |b| && forall i | 0 <= i < |a| :: Remaining(a[i]) == Remaining(b[i])
    ensures RemainingCount(a) == RemainingCount(b)
  {
    if a != [] {
      SameRemaining(a[..|a| - 1], b[..|b| - 1]);
    }
  }

  /** Exactly the recipients of `ids` are claimed. */
  predicate ClaimedExactly(db: Database, ids: seq<RecipientId>) {
    && (forall n | 0 <= n < |ids| :: ids[n] < |db.recipients| && ClaimedNow(db.recipients[ids[n]]))
    && (forall m, n | 0 <= m < n < |ids| :: ids[m] < ids[n])
    && (forall i | 0 <= i < |db.recipients| && db.recipients[i].status.InProgress? :: i in ids)
  }

  lemma OneSettled(db: Database, ids: seq<RecipientId>, after: Database)
    requires ids != [] && ClaimedExactly(db, ids) && Settles(db, after, ids[0])
    ensures ClaimedExactly(after, ids[1..])
    ensures RemainingCount(after.recipients) == RemainingCount(db.recipients) - 1
  {
    OneFewer(db.recipients, ids[0], after.recipients[ids[0]]);
    RestClaimed(db, ids, after);
  }

  lemma RestClaimed(db: Database, ids: seq<RecipientId>, after: Database)
    requires ids != [] && ClaimedExactly(db, ids) && Settles(db, after, ids[0])
    ensures ClaimedExactly(after, ids[1..])
  {
    var rest := ids[1..];
    assert ids == [ids[0]] + rest;
    forall n | 0 <= n < |rest| ensures rest[n] < |after.recipients| && ClaimedNow(after.recipients[rest[n]]) {
      assert rest[n] == ids[n + 1] && ids[0] < ids[n + 1];
    }
    forall i | 0 <= i < |after.recipients| && after.recipients[i].status.InProgress? ensures i in rest {
      assert i != ids[0] && after.recipients[i] == db.recipients[i];
    }
  }

  lemma {:induction false} DispatchAllSettles(db: Database, ids: seq<RecipientId>, call: Call)
    requires DatabaseInv(db) && ClaimedExactly(db, ids)
    ensures var after := DispatchAll(db, ids, call);
            after.Some? ==>
              && DatabaseInv(after.value) && Quiet(after.value.recipients)
              && after.value.broadcast == db.broadcast && after.value.settings == db.settings
              && RemainingCount(after.value.recipients) == RemainingCount(db.recipients) - |ids|
    decreases |ids|
  {
    if ids != [] {
      DispatchOneSettles(db, ids[0], call);
      var after := DispatchOne(db, ids[0], call);
      if after.Some? {
        OneSettled(db, ids, after.value);
        DispatchAllSettles(after.value, ids[1..], call);
      }
    }
  }

  // ---- One call ----

  /** The state a call is made in: nothing claimed, and completed exactly when nothing remains. */
  predicate BetweenCalls(db: Database) {
    && DatabaseInv(db) && Quiet(db.recipients)
    && (if RemainingCount(db.recipients) == 0 then db.broadcast.status.Completed? else db.broadcast.status.Processing?)
  }

  function Least(a: nat, b: nat): nat {
    if a < b then a else b
  }

  lemma {:induction false} QuietRemainIsReady(recipients: seq<Recipient>, upTo: nat)
    requires Quiet(recipients) && upTo <= |recipients|
    ensures RemainingCount(recipients[..upTo]) + ReadyCount(recipients, upTo) == ReadyCount(recipients, 0)
  {
    if upTo > 0 {
      QuietRemainIsReady(recipients, upTo - 1);
      assert recipients[..upTo][..upTo - 1] == recipients[..upTo - 1];
    }
  }

  lemma {:induction false} NoneStale(recipients: seq<Recipient>, threshold: Time, upTo: nat)
    requires Quiet(recipients) && upTo <= |recipients|
    ensures StaleIds(recipients, threshold, {}, upTo) == []
  {
    if upTo > 0 {
      NoneStale(recipients, threshold, upTo - 1);
    }
  }

  /** With nothing in progress there is nothing to recover. */
  lemma NothingRecovered(db: Database, now: Time)
    requires Quiet(db.recipients)
    ensures RecoverStaleClaims(db, now, {}) == db
  {
    NoneStale(db.recipients, now - db.settings.claimTimeout, |db.recipients|);
    assert RecoverStaleClaims(db, now, {}).recipients == db.recipients;
    assert RecoverStaleClaims(db, now, {}).audits == db.audits;
  }

  lemma WorldKeeps(db: Database, call: Call)
    requires DatabaseInv(db)
    ensures DatabaseInv(InWorld(db, call))
  {
  }

  lemma BatchTaken(recipients: seq<Recipient>, batch: nat)
    requires Quiet(recipients)
    ensures |ReadyFrom(recipients, 0, batch, {})| == Least(RemainingCount(recipients), batch)
  {
    ReadyFromCounts(recipients, 0, batch);
    QuietRemainIsReady(recipients, |recipients|);
    assert recipients[..|recipients|] == recipients;
  }

  /** The claim and the dispatches of one call. */
  lemma ClaimAndDispatch(db: Database, call: Call, candidates: seq<Candidate>)
    requires DatabaseInv(db) && Quiet(db.recipients) && db.broadcast.status.Processing?
             && !CommandExists(db, call.command)
    requires Claimable(db, candidates, {}) == ReadyFrom(db.recipients, 0, db.settings.batchSize, {})
    requires ClaimRecipients(db, call.command, candidates, call.now, {}).Some?
    ensures var claim := ClaimRecipients(db, call.command, candidates, call.now, {}).value;
            var after := DispatchAll(claim.db, claim.ids, call);
            after.Some? ==>
              && DatabaseInv(after.value) && Quiet(after.value.recipients)
              && after.value.broadcast == db.broadcast && after.value.settings == db.settings
              && RemainingCount(after.value.recipients)
                 == RemainingCount(db.recipients) - Least(RemainingCount(db.recipients), db.settings.batchSize)
  {
    ClaimKeeps(db, call.command, candidates, call.now, {});
    ClaimTakes(db, call.command, candidates, call.now);
    BatchTaken(db.recipients, db.settings.batchSize);
    var claim := ClaimRecipients(db, call.command, candidates, call.now, {}).value;
    DispatchAllSettles(claim.db, claim.ids, call);
  }

  /** A call that neither raises nor replays settles exactly one batch, and completes when none is left. */
  lemma CallSettlesOneBatch(db: Database, call: Call)
    requires DatabaseInv(db) && Quiet(db.recipients) && db.broadcast.status.Processing?
    requires ProcessBatch(db, call).Some?
    ensures var after := ProcessBatch(db, call).value;
            && BetweenCalls(after) && after.settings == db.settings
            && RemainingCount(after.recipients)
               == RemainingCount(db.recipients) - Least(RemainingCount(db.recipients), db.settings.batchSize)
  {
    var world := InWorld(db, call);
    WorldKeeps(db, call);
    NothingRecovered(world, call.now);
    var candidates := Candidates(world, call.clientIds);
    ClaimsOneBatch(world, call.clientIds);
    ClaimAndDispatch(world, call, candidates);
    var claim := ClaimRecipients(world, call.command, candidates, call.now, {}).value;
    CompleteKeeps(DispatchAll(claim.db, claim.ids, call).value, call.now);
  }

  lemma TakenRecipient(db: Database, command: Uuid, candidates: seq<Candidate>, now: Time, i: RecipientId)
    requires DatabaseInv(db) && db.broadcast.status.Processing? && !CommandExists(db, command)
    requires ClaimRecipients(db, command, candidates, now, {}).Some? && i in Claimable(db, candidates, {})
    ensures var claimed := ClaimRecipients(db, command, candidates, now, {}).value.db;
            && i < |db.recipients| == |claimed.recipients| && ClaimedNow(claimed.recipients[i])
            && ClaimKept(db, i, claimed.recipients[i])
  {
    ClaimedRecipient(db, i, ClientIdFor(candidates, i), command, now);
  }

  /** A claim links the conversation of the phone and leaves the messages there are; the first one is the starter's. */
  predicate ClaimKept(db: Database, i: RecipientId, claimed: Recipient)
    requires i < |db.recipients|
  {
    var r := db.recipients[i];
    && claimed.conversation == Some(r.phone) && claimed.phone == r.phone && claimed.customer == r.customer
    && claimed.messages != []
    && (if r.messages == [] then db.broadcast.startedBy == Some(Latest(claimed).row.sentBy)
        else claimed.messages == r.messages)
  }

  lemma ClaimTakes(db: Database, command: Uuid, candidates: seq<Candidate>, now: Time)
    requires DatabaseInv(db) && Quiet(db.recipients) && db.broadcast.status.Processing? && !CommandExists(db, command)
    requires ClaimRecipients(db, command, candidates, now, {}).Some?
    ensures var claim := ClaimRecipients(db, command, candidates, now, {}).value;
            && |claim.db.recipients| == |db.recipients| && claim.db.broadcast == db.broadcast
            && claim.db.settings == db.settings && claim.ids == Claimable(db, candidates, {})
            && ClaimedExactly(claim.db, claim.ids)
            && RemainingCount(claim.db.recipients) == RemainingCount(db.recipients)
  {
    var claim := ClaimRecipients(db, command, candidates, now, {}).value;
    forall i | i in claim.ids ensures ClaimedNow(claim.db.recipients[i]) {
      TakenRecipient(db, command, candidates, now, i);
    }
    OthersUnclaimed(db, command, candidates, now);
    SameRemaining(db.recipients, claim.db.recipients);
  }

  lemma OthersUnclaimed(db: Database, command: Uuid, candidates: seq<Candidate>, now: Time)
    requires !CommandExists(db, command) && ClaimRecipients(db, command, candidates, now, {}).Some?
    ensures var claim := ClaimRecipients(db, command, candidates, now, {}).value;
            && claim.ids == Claimable(db, candidates, {})
            && |claim.db.recipients| == |db.recipients|
            && forall i | 0 <= i < |db.recipients| && i !in claim.ids :: claim.db.recipients[i] == db.recipients[i]
  {
  }

  // ---- All calls ----

  function ProcessAll(db: Database, calls: seq<Call>): Option<Database> {
    if calls == [] then Some(db)
    else
      var before := ProcessAll(db, calls[..|calls| - 1]);
      if before.None? then None else ProcessBatch(before.value, calls[|calls| - 1])
  }

  /** A completed broadcast refuses further calls. */
  lemma CompletedRefuses(db: Database, call: Call)
    requires ProcessBatch(db, call).Some?
    ensures !db.broadcast.status.Completed?
  {
  }

  /** How many batches settle `n` recipients. */
  function BatchesFor(n: nat, batch: nat): nat
    requires batch >= 1
  {
    if n == 0 then 0 else 1 + BatchesFor(n - Least(n, batch), batch)
  }

  lemma {:induction false} BatchesAreCeil(n: nat, batch: nat)
    requires batch >= 1
    ensures BatchesFor(n, batch) == CeilDiv(n, batch)
  {
    if n == 0 {
      Quotient(batch - 1, batch, 0, batch - 1);
    } else if n <= batch {
      assert BatchesFor(0, batch) == 0;
      Quotient(n + batch - 1, batch, 1, n - 1);
    } else {
      BatchesAreCeil(n - batch, batch);
      OneMore(n - 1, batch);
    }
  }

  lemma {:induction false} BatchesLeft(db: Database, calls: seq<Call>)
    requires BetweenCalls(db) && ProcessAll(db, calls).Some?
    ensures var after := ProcessAll(db, calls).value;
            && BetweenCalls(after) && after.settings == db.settings
            && BatchesFor(RemainingCount(db.recipients), after.settings.batchSize)
               == |calls| + BatchesFor(RemainingCount(after.recipients), db.settings.batchSize)
  {
    if calls != [] {
      var earlier := calls[..|calls| - 1];
      BatchesLeft(db, earlier);
      var before := ProcessAll(db, earlier).value;
      CompletedRefuses(before, calls[|calls| - 1]);
      CallSettlesOneBatch(before, calls[|calls| - 1]);
    }
  }

  /** ceil(n / batch). */
  function CeilDiv(n: nat, batch: nat): nat
    requires batch >= 1
  {
    (n + batch - 1) / batch
  }

  lemma CompletesAfterBatches(db: Database, calls: seq<Call>, needed: nat)
    requires BetweenCalls(db) && ProcessAll(db, calls).Some?
    requires needed == BatchesFor(RemainingCount(db.recipients), db.settings.batchSize)
    ensures var after := ProcessAll(db, calls).value;
            && |calls| <= needed
            && (after.broadcast.status.Completed? <==> |calls| == needed)
            && (RemainingCount(after.recipients) == 0 <==> |calls| == needed)
  {
    BatchesLeft(db, calls);
  }

  /**
   With n > 0 recipients remaining, calls that do not raise complete the broadcast with exactly
   the ceil(n / batch size)-th of them; one more is refused.
   */
  lemma CompletesAfterCeil(db: Database, calls: seq<Call>, needed: nat)
    requires DatabaseInv(db) && Quiet(db.recipients) && db.broadcast.status.Processing?
    requires RemainingCount(db.recipients) > 0
    requires ProcessAll(db, calls).Some?
    requires needed == CeilDiv(RemainingCount(db.recipients), db.settings.batchSize)
    ensures var after := ProcessAll(db, calls).value;
            && |calls| <= needed
            && (after.broadcast.status.Completed? <==> |calls| == needed)
            && (RemainingCount(after.recipients) == 0 <==> |calls| == needed)
  {
    BatchesAreCeil(RemainingCount(db.recipients), db.settings.batchSize);
    CompletesAfterBatches(db, calls, needed);
  }
}
