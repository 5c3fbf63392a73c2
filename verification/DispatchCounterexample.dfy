/**
 One concrete run in which two statements one would expect of the recipient status fail: a
 recipient is blocked although the provider accepted its message, and a completed broadcast has a
 recipient in progress that no worker has claimed.
 */
module DispatchCounterexample {
  import opened Wrappers
  import opened BroadcastModel
  import opened BroadcastTransactions
  import opened DispatchProtocol
  import DispatchStranded
  import Consent
  import Payload
  import Digest

  const PHONE: Phone := "+5491155550000"
  const KEY := Consent.Key(1, PHONE)
  const TEMPLATE := Payload.Template("promo", "es_AR", None, None)
  const DRAFT := Digest.Draft("Promo", None, "sig", None, [])
  const OK := Checks(true, true)
  const STARTER: UserId := 7

  const DRAFTED :=
    Database(Settings(1, 60),
             Broadcast(1, BroadcastStatus.Draft, 1, DRAFT, TEMPLATE, None, "", 0, None, None, None, None),
             [], [], [Consent.Event(1, KEY, Consent.OptIn, Consent.FaaCrm, None, 0, 0, STARTER)],
             map[1 := Customer(Some(PHONE), false)], map[], {STARTER})

  const START := System(DRAFTED, map[], [], [], [])

  /** Any set of systems that holds the start and is closed under steps holds every reachable one. */
  ghost predicate Closed(reached: iset<System>) {
    START in reached && forall t, a :: t in reached ==> Step(t, a) in reached
  }

  // ---- Single steps ----

  lemma Prepare(reached: iset<System>, t: System, w: WorkerId, now: Time) returns (u: System)
    requires Closed(reached) && t in reached
    ensures u in reached && u == StepPrepare(t, w, true, now)
  {
    u := Step(t, DoPrepare(w, true, now));
  }

  lemma Admit(reached: iset<System>, t: System, w: WorkerId, ref: MessageRef) returns (u: System)
    requires Closed(reached) && t in reached
    ensures u in reached && u == StepAdmit(t, w, ref)
  {
    u := Step(t, DoAdmit(w, ref));
  }

  lemma ReadNow(reached: iset<System>, t: System, w: WorkerId, command: Uuid, clientId: Uuid) returns (u: System)
    requires Closed(reached) && t in reached
    ensures u in reached && u == StepRead(t, w, command, [clientId])
  {
    u := Step(t, DoRead(w, command, [clientId]));
  }

  lemma ClaimNow(reached: iset<System>, t: System, w: WorkerId, now: Time) returns (u: System)
    requires Closed(reached) && t in reached
    ensures u in reached && u == StepClaim(t, w, now, {})
  {
    u := Step(t, DoClaim(w, now, {}));
  }

  lemma RetryNow(reached: iset<System>, t: System, request: RetryRequest) returns (u: System)
    requires Closed(reached) && t in reached
    ensures u in reached && u == Try(t, RetryFailed(t.db, 13, [request], STARTER, true, 1100))
  {
    u := Step(t, DoRetry(13, [request], STARTER, true, 1100));
  }

  // ---- The surroundings ----

  lemma InForce(now: Time)
    requires now >= 0
    ensures Consent.OptedIn(DRAFTED.consents, KEY, now)
  {
    assert Consent.Applies(DRAFTED.consents, KEY, now, 0);
  }

  const READY := NewRecipient(1, PHONE).(consentEvent := Some(0), status := RecipientStatus.Ready)

  /** The surroundings of the run: one consenting customer, commands below `unused` used up. */
  predicate Around(t: System, unused: nat) {
    && t.db.settings == Settings(1, 60)
    && t.db.broadcast.startedBy == Some(STARTER) && t.db.broadcast.template == TEMPLATE
    && t.db.consents == DRAFTED.consents && t.db.customers == DRAFTED.customers && t.db.activeUsers == {STARTER}
    && (PHONE in t.db.conversations ==> t.db.conversations[PHONE] == Conversation(Some(1), true, false))
    && |t.db.recipients| == 1 && t.db.recipients[0].customer == 1 && t.db.recipients[0].phone == PHONE
    && (forall i | 0 <= i < |t.db.audits| :: t.db.audits[i].command.None? || t.db.audits[i].command.value < unused)
  }

  /** Its only message is the latest one, stored for the starter and still pending, and it is claimed. */
  predicate ClaimedPending(t: System, rank: nat) {
    |t.db.recipients| == 1 && PHONE in t.db.conversations
    && var r := t.db.recipients[0];
    && r.status.InProgress? && r.claimToken.Some? && r.claimedAt.Some? && r.reason.None?
    && r.conversation == Some(PHONE) && |r.messages| == rank + 1
    && Latest(r).dispatch.Pending? && Latest(r).provider.None?
    && Latest(r).row == RowOf(Latest(r).row.clientId, Latest(r).row.retryOf)
  }

  function RowOf(clientId: Uuid, retryOf: Option<nat>): Payload.Row {
    Payload.StoredRow(TEMPLATE, 0, PHONE, clientId, STARTER, retryOf)
  }

  lemma Selected1()
    ensures Selected(DRAFTED, [1]) == [NewRecipient(1, PHONE)]
  {
    assert Selected(DRAFTED, []) == [];
    assert [1][..0] == [];
  }

  lemma Validated(reached: iset<System>) returns (t: System)
    requires Closed(reached)
    ensures t in reached && t.workers == map[] && t.calls == []
    ensures t.db == DRAFTED.(recipients := [NewRecipient(1, PHONE)], audits := t.db.audits, broadcast := t.db.broadcast)
    ensures t.db.broadcast == DRAFTED.broadcast.(version := 2, validationToken := Some(90), validUntil := 600_000_100,
                                                 validationDigest := t.db.broadcast.validationDigest)
    ensures |t.db.audits| == 2 && t.db.audits[0].command == Some(1) && t.db.audits[1].command == None
    ensures AllEligible(t.db, 100) && t.db.broadcast.validationDigest == DigestOf(t.db, 100)
  {
    Selected1();
    t := Step(START, DoReplaceRecipients(1, [1], 1));
    InForce(100);
    assert Eligible(t.db, t.db.recipients[0], 100);
    t := Step(t, DoValidate(2, OK, 90, 100));
  }

  lemma ConfirmedRun(reached: iset<System>) returns (t: System)
    requires Closed(reached)
    ensures t in reached && t.workers == map[] && t.calls == [] && t.db.recipients == [READY]
    ensures t.db == DRAFTED.(recipients := [READY], audits := t.db.audits, broadcast := t.db.broadcast)
    ensures t.db.broadcast.status.Confirmed? && t.db.broadcast.template == TEMPLATE
    ensures forall i | 0 <= i < |t.db.audits| :: t.db.audits[i].command.None? || t.db.audits[i].command.value < 3
  {
    t := Validated(reached);
    InForce(100);
    assert Consent.Current(t.db.consents, KEY, 100) == Some(0);
    t := Step(t, DoConfirm(2, 2, 90, OK, STARTER, 100));
    assert t.db.recipients == [READY];
  }

  lemma Launched(reached: iset<System>) returns (t: System)
    requires Closed(reached)
    ensures t in reached && Around(t, 10) && t.db.recipients == [READY] && t.db.broadcast.status.Processing?
    ensures t.workers == map[] && t.calls == []
  {
    t := ConfirmedRun(reached);
    t := Step(t, DoLaunch(3, STARTER));
  }

  // ---- Stretches of the run, for any state of their kind ----

  lemma ClaimsOnly(db: Database, candidates: seq<Candidate>, r: Recipient)
    requires db.settings.batchSize == 1 && db.recipients == [r] && r.status.Ready?
    requires |candidates| == 1 && candidates[0].recipient == 0
    ensures Claimable(db, candidates, {}) == [0]
    ensures ReadyFrom(db.recipients, 0, 2, {}) == [0]
    ensures LinkAll(db.conversations, db.recipients, [0])
            == if !ConversationAvailable(db.conversations, r) then None
               else if r.phone in db.conversations then Some(db.conversations)
               else Some(db.conversations[r.phone := Conversation(Some(r.customer), true, false)])
  {
    var others := set id: RecipientId | id < |db.recipients| && !IsCandidate(candidates, id);
    assert others == {};
    assert ReadyFrom(db.recipients, 1, 0, {} + others) == [];
    assert ReadyFrom(db.recipients, 1, 1, {}) == [];
    assert [0][1..] == [];
  }

  lemma Claims(reached: iset<System>, t: System, w: WorkerId, command: Uuid, clientId: Uuid, now: Time)
    returns (u: System)
    requires Closed(reached) && t in reached && Around(t, command) && t.db.broadcast.status.Processing?
    requires t.db.recipients[0].status.Ready? && At(t, w).Idle?
    ensures u in reached && Around(u, command + 1) && PHONE in u.db.conversations && u.db.broadcast == t.db.broadcast
    ensures u.workers == t.workers[w := Draining([0])] && u.calls == t.calls
    ensures u.db.recipients == [Claim(t.db.recipients[0], NewMessage(RowOf(clientId, None), now), command, now)]
  {
    var candidates := [Candidate(0, clientId)];
    ClaimsOnly(t.db, candidates, t.db.recipients[0]);
    u := ReadNow(reached, t, w, command, clientId);
    assert u.workers[w].candidates == candidates;
    u := ClaimsRead(reached, u, w, command, clientId, now);
  }

  lemma ClaimsRead(reached: iset<System>, t: System, w: WorkerId, command: Uuid, clientId: Uuid, now: Time)
    returns (u: System)
    requires Closed(reached) && t in reached && Around(t, command) && t.db.broadcast.status.Processing?
    requires t.db.recipients[0].status.Ready? && At(t, w) == Reading(command, [Candidate(0, clientId)])
    ensures u in reached && Around(u, command + 1) && PHONE in u.db.conversations && u.db.broadcast == t.db.broadcast
    ensures u.workers == t.workers[w := Draining([0])] && u.calls == t.calls
    ensures u.db.recipients == [Claim(t.db.recipients[0], NewMessage(RowOf(clientId, None), now), command, now)]
  {
    ClaimsOne(t.db, command, clientId, now);
    assert !CommandExists(t.db, command);
    u := ClaimNow(reached, t, w, now);
  }

  lemma ClaimsOne(db: Database, command: Uuid, clientId: Uuid, now: Time)
    requires db.settings.batchSize == 1 && |db.recipients| == 1 && db.recipients[0].status.Ready?
             && !CommandExists(db, command)
    requires db.broadcast.status.Processing? && db.broadcast.startedBy == Some(STARTER)
             && db.broadcast.template == TEMPLATE
    requires db.recipients[0].phone == PHONE && db.recipients[0].customer == 1
    requires PHONE in db.conversations ==> db.conversations[PHONE] == Conversation(Some(1), true, false)
    ensures var conversations := db.conversations[PHONE := Conversation(Some(1), true, false)];
            var claimed := [Claim(db.recipients[0], NewMessage(RowOf(clientId, None), now), command, now)];
            ClaimRecipients(db, command, [Candidate(0, clientId)], now, {})
            == Some(ClaimResult(Audited(db.(recipients := claimed, conversations := conversations), Processed,
                                        Some(command), 1), [0]))
  {
    var candidates := [Candidate(0, clientId)];
    ClaimsOnly(db, candidates, db.recipients[0]);
    if PHONE in db.conversations {
      assert db.conversations[PHONE := Conversation(Some(1), true, false)] == db.conversations;
    }
    var claim := ClaimRecipients(db, command, candidates, now, {}).value;
    assert claim.db.recipients == [Claim(db.recipients[0], NewMessage(RowOf(clientId, None), now), command, now)];
  }

  function PlanFor(r: Recipient): Plan
    requires r.messages != []
  {
    Plan(0, Payload.PlannedInput(TEMPLATE, 0, PHONE, Latest(r).row.clientId, STARTER, Latest(r).row.retryOf))
  }

  lemma Prepares(t: System, w: WorkerId, rank: nat, unused: nat, now: Time)
    requires Around(t, unused) && ClaimedPending(t, rank) && At(t, w) == Draining([0]) && now >= 0
    ensures StepPrepare(t, w, true, now) == Move(t, w, Holding(PlanFor(t.db.recipients[0]), []))
  {
    InForce(now);
    assert ConsentKey(t.db.recipients[0]) == KEY;
    assert [0][1..] == [];
  }

  lemma PlanAdmitted(t: System, rank: nat, unused: nat)
    requires Around(t, unused) && ClaimedPending(t, rank)
    ensures Admits(t.db, PlanFor(t.db.recipients[0]), MessageRef(0, rank))
  {
    var r := t.db.recipients[0];
    Payload.ReplaysIff(TEMPLATE, 0, PHONE, Latest(r).row.clientId, STARTER, STARTER, Latest(r).row.retryOf);
  }

  lemma IsAdmitted(reached: iset<System>, t: System, w: WorkerId, rank: nat, unused: nat, now: Time) returns (u: System)
    requires Closed(reached) && t in reached && Around(t, unused) && ClaimedPending(t, rank)
    requires At(t, w) == Draining([0]) && now >= 0
    ensures u in reached && u == Move(t, w, Admitted(MessageRef(0, rank), []))
  {
    Prepares(t, w, rank, unused, now);
    PlanAdmitted(t, rank, unused);
    var held := Prepare(reached, t, w, now);
    HeldAdmitted(held, w, rank);
    u := Admit(reached, held, w, MessageRef(0, rank));
  }

  lemma HeldAdmitted(held: System, w: WorkerId, rank: nat)
    requires ClaimedPending(held, rank) && At(held, w) == Holding(PlanFor(held.db.recipients[0]), [])
    requires Admits(held.db, PlanFor(held.db.recipients[0]), MessageRef(0, rank))
    ensures StepAdmit(held, w, MessageRef(0, rank)) == Move(held, w, Admitted(MessageRef(0, rank), []))
  {
  }

  lemma Starts(reached: iset<System>, t: System, w: WorkerId, rank: nat, unused: nat, now: Time) returns (u: System)
    requires Closed(reached) && t in reached && Around(t, unused) && ClaimedPending(t, rank)
    requires At(t, w) == Admitted(MessageRef(0, rank), []) && now >= 0
    ensures u in reached && Around(u, unused) && u.db.broadcast == t.db.broadcast
            && u.db.conversations == t.db.conversations
    ensures u.db.recipients == [BroadcastModel.Start(t.db.recipients[0], rank)] && u.calls == t.calls
    ensures u.workers == t.workers[w := Dispatching(StartOf(t.db, MessageRef(0, rank), now), [])]
  {
    InForce(now);
    assert ConsentKey(t.db.recipients[0]) == KEY;
    u := Step(t, DoStart(w, now));
  }

  lemma Recovers(reached: iset<System>, t: System, rank: nat, unused: nat, now: Time) returns (u: System)
    requires Closed(reached) && t in reached && Around(t, unused) && ClaimedPending(t, rank)
    requires t.db.broadcast.status.Processing? && Stale(t.db.recipients[0], now - 60)
    ensures u in reached && Around(u, unused) && u.workers == t.workers && u.calls == t.calls
    ensures u.db.broadcast == t.db.broadcast && u.db.conversations == t.db.conversations
    ensures u.db.recipients == [Recover(t.db.recipients[0])] && u.db.recipients[0].status.Ready?
  {
    RecoversOnly(t.db, t.db.recipients[0], now);
    u := Step(t, DoRecover(now, {}));
  }

  lemma RecoversOnly(db: Database, r: Recipient, now: Time)
    requires db.broadcast.status.Processing? && db.recipients == [r] && Stale(r, now - db.settings.claimTimeout)
    ensures RecoverStaleClaims(db, now, {})
         == db.(recipients := [Recover(r)], audits := db.audits + [Audit(StaleClaimRecovered, None, 0)])
  {
    assert StaleIds(db.recipients, now - db.settings.claimTimeout, {}, 0) == [];
    assert Repeated(Audit(StaleClaimRecovered, None, 0), 1) == [Audit(StaleClaimRecovered, None, 0)];
    assert RecoverStaleClaims(db, now, {}).recipients == [Recover(r)];
  }

  // ---- The run ----

  lemma FirstAdmitted(reached: iset<System>) returns (t: System)
    requires Closed(reached)
    ensures t in reached && Around(t, 12) && ClaimedPending(t, 0) && t.db.broadcast.status.Processing?
    ensures Stale(t.db.recipients[0], 1000 - 60)
    ensures t.workers == map[1 := Admitted(MessageRef(0, 0), [])] && t.calls == []
  {
    t := Launched(reached);
    t := Claims(reached, t, 1, 11, 101, 100);
    t := IsAdmitted(reached, t, 1, 0, 12, 100);
  }

  /** A pending message that is recovered and claimed again is the same message. */
  lemma Reclaimed(t: System, rank: nat, initial: Message, command: Uuid, now: Time)
    requires ClaimedPending(t, rank)
    ensures var r := t.db.recipients[0];
            var s := Claim(Recover(r), initial, command, now);
            && s.status.InProgress? && s.claimToken == Some(command) && s.claimedAt == Some(now) && s.reason.None?
            && s.messages == r.messages && s.conversation == Some(r.phone) && s.phone == r.phone
            && s.customer == r.customer
  {
  }

  /** Two workers hold the same pending message. */
  lemma BothAdmitted(reached: iset<System>) returns (t: System)
    requires Closed(reached)
    ensures t in reached && Around(t, 13) && ClaimedPending(t, 0) && t.db.broadcast.status.Processing?
    ensures t.workers == map[1 := Admitted(MessageRef(0, 0), []), 2 := Admitted(MessageRef(0, 0), [])] && t.calls == []
  {
    t := SecondClaimed(reached);
    t := IsAdmitted(reached, t, 2, 0, 13, 1000);
  }

  lemma SecondClaimed(reached: iset<System>) returns (t: System)
    requires Closed(reached)
    ensures t in reached && Around(t, 13) && ClaimedPending(t, 0) && t.db.broadcast.status.Processing?
    ensures t.workers == map[1 := Admitted(MessageRef(0, 0), []), 2 := Draining([0])] && t.calls == []
  {
    t := FirstAdmitted(reached);
    Reclaimed(t, 0, NewMessage(RowOf(201, None), 1000), 12, 1000);
    t := Recovers(reached, t, 0, 12, 1000);
    t := Claims(reached, t, 2, 12, 201, 1000);
  }

  const ACCEPTED := AcceptedAs("wamid.1", None, NO_EVIDENCE)

  /** The faster one sends it. */
  lemma SentByFaster(reached: iset<System>) returns (t: System)
    requires Closed(reached)
    ensures t in reached && Around(t, 13) && t.db.broadcast.status.Processing? && PHONE in t.db.conversations
    ensures |t.calls| == 1 && t.calls[0].ref == MessageRef(0, 0)
    ensures t.workers == map[1 := Admitted(MessageRef(0, 0), []), 2 := Draining([])]
    ensures var r := t.db.recipients[0];
            r.status.Accepted? && r.conversation == Some(PHONE) && |r.messages| == 1
            && r.messages[0].dispatch.Accepted? && r.messages[0].externalId.Some?
  {
    t := BothAdmitted(reached);
    t := Starts(reached, t, 2, 0, 13, 1000);
    AcceptedAnswer(t.db.recipients[0]);
    t := IsAccepted(reached, t);
  }

  lemma AcceptedAnswer(r: Recipient)
    requires |r.messages| == 1 && r.messages[0].dispatch.InProgress?
    ensures var s := Reconcile(r, 0, ACCEPTED, 1000);
            s.status.Accepted? && s.conversation == r.conversation && |s.messages| == 1 && s.phone == r.phone
            && s.customer == r.customer && s.messages[0].dispatch.Accepted? && s.messages[0].externalId.Some?
  {
  }

  /** The provider accepts what the second worker dispatches. */
  lemma IsAccepted(reached: iset<System>, t: System) returns (u: System)
    requires Closed(reached) && t in reached && At(t, 2).Dispatching? && At(t, 2).queue == []
    requires At(t, 2).start.ref == MessageRef(0, 0) && ValidRef(t.db, MessageRef(0, 0)) && |t.db.recipients| == 1
    ensures u in reached && u.calls == t.calls + [At(t, 2).start] && u.workers == t.workers[2 := Draining([])]
    ensures u.db == t.db.(recipients := [Reconcile(t.db.recipients[0], 0, ACCEPTED, 1000)])
  {
    u := Step(t, DoCall(2, ACCEPTED));
    u := Step(u, DoReconcile(2, 1000));
  }

  /** The slower one then blocks the recipient of an accepted message. */
  lemma BlockedAfterAcceptance(reached: iset<System>) returns (t: System)
    requires Closed(reached)
    ensures t in reached && Around(t, 13) && t.db.broadcast.status.Processing? && PHONE in t.db.conversations
    ensures |t.calls| == 1 && t.calls[0].ref == MessageRef(0, 0)
    ensures t.workers == map[1 := Draining([]), 2 := Draining([])]
    ensures var r := t.db.recipients[0];
            r.status.Blocked? && r.conversation == Some(PHONE) && |r.messages| == 1
            && r.messages[0].dispatch.Accepted? && r.messages[0].externalId.Some?
  {
    t := SentByFaster(reached);
    t := Step(t, DoStart(1, 1000));
  }

  lemma RetriedOnceClaimed(reached: iset<System>) returns (t: System)
    requires Closed(reached)
    ensures t in reached && Around(t, 15) && ClaimedPending(t, 1) && t.db.broadcast.status.Processing?
    ensures t.workers == map[1 := Draining([]), 2 := Draining([]), 3 := Draining([0])]
    ensures Stale(t.db.recipients[0], 2000 - 60) && t.db.recipients[0].messages[0].externalId.Some?
  {
    t := BlockedAfterAcceptance(reached);
    t := Step(t, DeliveryStatusReceived(MessageRef(0, 0), ProviderState.Failed, NO_EVIDENCE));
    t := RetriesOnce(reached, t);
    t := Claims(reached, t, 3, 14, 301, 1100);
  }

  /**
   The attempt is reported failed and retried; while its second message is in flight, a third worker
   claims it too.
   */
  lemma RetriedTwiceClaimed(reached: iset<System>) returns (t: System)
    requires Closed(reached)
    ensures t in reached && Around(t, 16) && ClaimedPending(t, 1) && t.db.broadcast.status.Processing?
    ensures t.workers
            == map[1 := Draining([]), 2 := Draining([]), 3 := Draining([0]), 4 := Admitted(MessageRef(0, 1), [])]
    ensures t.db.recipients[0].messages[0].externalId.Some?
  {
    t := RetriedOnceClaimed(reached);
    Reclaimed(t, 1, NewMessage(RowOf(401, None), 2000), 15, 2000);
    t := Recovers(reached, t, 1, 15, 2000);
    t := Claims(reached, t, 4, 15, 401, 2000);
    t := IsAdmitted(reached, t, 4, 1, 16, 2000);
  }

  lemma ServedOnce(db: Database, request: RetryRequest)
    requires Retryable(db, request)
    ensures RetryAll(db, [request], STARTER, 1100) == Retried(RetryOne(db, request, STARTER, 1100), 1)
  {
    assert [request][..0] == [];
    assert RetryAll(db, [], STARTER, 1100) == Retried(db, 0);
  }

  lemma RetriesOnce(reached: iset<System>, t: System) returns (u: System)
    requires Closed(reached) && t in reached && Around(t, 13) && t.db.broadcast.status.Processing?
    requires t.db.recipients[0].status.Failed? && t.db.recipients[0].conversation == Some(PHONE)
    requires |t.db.recipients[0].messages| == 1 && MessageFailed(Latest(t.db.recipients[0]))
    ensures u in reached && Around(u, 14) && u.db.broadcast.status.Processing? && u.workers == t.workers
    ensures u.db.conversations == t.db.conversations
    ensures u.db.recipients == [Retry(t.db.recipients[0], NewMessage(RowOf(102, Some(0)), 1100))]
  {
    var request := RetryRequest(0, 102, 1100);
    InForce(1100);
    assert ConsentKey(t.db.recipients[0]) == KEY;
    ServedOnce(t.db, request);
    u := RetryNow(reached, t, request);
  }

  lemma BlockedInFlight(reached: iset<System>) returns (t: System)
    requires Closed(reached)
    ensures t in reached && t.db.broadcast.status.Processing? && |t.db.recipients| == 1
    ensures t.workers.Keys == {1, 2, 3, 4} && forall w | w in {1, 2, 3} :: t.workers[w] == Draining([])
    ensures var r := t.db.recipients[0];
            r.status.Blocked? && r.claimToken.None? && |r.messages| == 2 && r.messages[0].externalId.Some?
            && r.messages[1].dispatch.InProgress? && r.messages[1].provider.None?
  {
    t := RetriedTwiceClaimed(reached);
    t := Starts(reached, t, 4, 1, 16, 2000);
    BlocksInFlight(t);
    t := Prepare(reached, t, 3, 2000);
  }

  lemma BlocksInFlight(t: System)
    requires |t.db.recipients| == 1 && At(t, 3) == Draining([0])
    requires var r := t.db.recipients[0]; r.status.InProgress? && r.messages != [] && !Latest(r).dispatch.Pending?
    ensures var u := StepPrepare(t, 3, true, 2000);
            && u.workers == t.workers[3 := Draining([])] && u.db.broadcast == t.db.broadcast && |u.db.recipients| == 1
            && u.db.recipients[0].status.Blocked? && u.db.recipients[0].claimToken.None?
            && u.db.recipients[0].messages == t.db.recipients[0].messages
  {
    assert [0][1..] == [];
  }

  /** The broadcast completes while the second message is in flight, and then has an unclaimed recipient in progress. */
  lemma CompletedInProgress(reached: iset<System>) returns (t: System)
    requires Closed(reached)
    ensures t in reached && t.db.broadcast.status.Completed?
    ensures |t.db.recipients| == 1 && t.db.recipients[0].status.InProgress? && t.db.recipients[0].claimToken.None?
  {
    t := BlockedInFlight(reached);
    t := Completes(reached, t);
    t := Step(t, DeliveryStatusReceived(MessageRef(0, 0), ProviderState.Delivered, NO_EVIDENCE));
  }

  lemma Completes(reached: iset<System>, t: System) returns (u: System)
    requires Closed(reached) && t in reached && At(t, 3) == Draining([])
    requires |t.db.recipients| == 1 && !Remaining(t.db.recipients[0])
    ensures u in reached && u.db.broadcast.status.Completed? && u.db.recipients == t.db.recipients
  {
    assert RemainingCount(t.db.recipients) == 0 by {
      assert RemainingCount(t.db.recipients[..0]) == 0;
    }
    u := Step(t, DoFinish(3, 2000));
  }

  lemma Strands(reached: iset<System>) returns (t: System)
    requires Closed(reached)
    ensures t in reached && t.db.broadcast.status.Processing? && DispatchStranded.Stranded(t.db, 0)
            && DispatchStranded.Forgotten(t, 0)
  {
    t := BlockedInFlight(reached);
    t := Step(t, Crash(4));
    t := Step(t, DeliveryStatusReceived(MessageRef(0, 0), ProviderState.Delivered, NO_EVIDENCE));
  }

  // ---- The expectations fail in a run ----

  ghost const REACHABLE: iset<System> := iset actions: seq<Action> | true :: Run(START, actions)

  lemma RunAppend(actions: seq<Action>, a: Action)
    ensures Run(START, actions + [a]) == Step(Run(START, actions), a)
  {
    assert (actions + [a])[..|actions + [a]| - 1] == actions;
  }

  lemma ReachableIsClosed()
    ensures Closed(REACHABLE)
  {
    assert START == Run(START, []);
    forall t, a | t in REACHABLE ensures Step(t, a) in REACHABLE {
      var actions: seq<Action> :| t == Run(START, actions);
      RunAppend(actions, a);
    }
  }

  /** A blocked recipient need not be one without a provider call. */
  lemma BlockedDoesNotMeanUnsent()
    ensures Initial(START)
    ensures exists actions :: var t := Run(START, actions);
              && |t.db.recipients| == 1 && t.db.recipients[0].status.Blocked?
              && |t.calls| == 1 && t.calls[0].ref == MessageRef(0, 0)
  {
    ReachableIsClosed();
    var t := BlockedAfterAcceptance(REACHABLE);
  }

  /** A completed broadcast can have a recipient in progress that nobody has claimed. */
  lemma CompletedDoesNotMeanIdle()
    ensures Initial(START)
    ensures exists actions :: var t := Run(START, actions);
              && t.db.broadcast.status.Completed? && |t.db.recipients| == 1
              && t.db.recipients[0].status.InProgress? && t.db.recipients[0].claimToken.None?
  {
    ReachableIsClosed();
    var t := CompletedInProgress(REACHABLE);
  }

  /** A run that leaves a broadcast in process for ever: a sender stops and a status of the attempt before arrives. */
  lemma NeverCompletes()
    ensures Initial(START)
    ensures exists actions :: var t := Run(START, actions);
              t.db.broadcast.status.Processing? && DispatchStranded.Stranded(t.db, 0)
              && DispatchStranded.Forgotten(t, 0)
  {
    ReachableIsClosed();
    var t := Strands(REACHABLE);
  }
}
