/**
 Which messages the provider may have seen. The history of started dispatches holds exactly the
 messages that left the pending state, the history of calls every message with an outcome, and a
 blocked recipient tells by its latest message on which side it stands.
 */
module DispatchHistory {
  import opened BroadcastModel
  import opened BroadcastTransactions
  import opened BroadcastInvariant
  import opened DispatchProtocol
  import opened DispatchSafety

  predicate WasHanded(s: System, ref: MessageRef) {
    exists i | 0 <= i < |s.handed| :: s.handed[i].ref == ref
  }

  predicate WasCalled(s: System, ref: MessageRef) {
    exists i | 0 <= i < |s.calls| :: s.calls[i].ref == ref
  }

  // ---- Transactions that start nothing and settle nothing ----

  predicate QuietMessages(r: Recipient, s: Recipient) {
    forall k | 0 <= k < |s.messages| ::
      && (!s.messages[k].dispatch.Pending? ==> k < |r.messages| && !r.messages[k].dispatch.Pending?)
      && (Settled(s.messages[k].dispatch) ==> k < |r.messages| && Settled(r.messages[k].dispatch))
  }

  predicate NothingHanded(db: Database, after: Database) {
    forall i | 0 <= i < |after.recipients| ::
      if i < |db.recipients| then QuietMessages(db.recipients[i], after.recipients[i])
      else after.recipients[i].messages == []
  }

  lemma SameMessages(db: Database, after: Database)
    requires |after.recipients| == |db.recipients|
    requires forall i | 0 <= i < |db.recipients| :: after.recipients[i].messages == db.recipients[i].messages
    ensures NothingHanded(db, after)
  {
  }

  lemma NothingHandedTransitive(a: Database, b: Database, c: Database)
    requires NothingHanded(a, b) && NothingHanded(b, c) && |a.recipients| == |b.recipients| == |c.recipients|
    ensures NothingHanded(a, c)
  {
    forall i | 0 <= i < |c.recipients| ensures QuietMessages(a.recipients[i], c.recipients[i]) {
      assert QuietMessages(a.recipients[i], b.recipients[i]);
      assert QuietMessages(b.recipients[i], c.recipients[i]);
    }
  }

  lemma OneQuiet(db: Database, id: RecipientId, r: Recipient)
    requires id < |db.recipients| && QuietMessages(db.recipients[id], r)
    ensures NothingHanded(db, WithRecipient(db, id, r))
  {
  }

  lemma ReplaceHandsNothing(db: Database, command: Uuid, ids: seq<CustomerId>, version: nat)
    ensures var after := ReplaceRecipients(db, command, ids, version);
            after.Some? ==> NothingHanded(db, after.value)
  {
    SelectedRows(db, ids);
  }

  lemma ConfirmHandsNothing(db: Database, command: Uuid, version: nat, token: Uuid, checks: Checks, actor: UserId,
                            now: Time)
    ensures var after := Confirm(db, command, version, token, checks, actor, now);
            after.Some? ==> NothingHanded(db, after.value)
  {
  }

  lemma RecoverHandsNothing(db: Database, now: Time, locked: set<RecipientId>)
    ensures NothingHanded(db, RecoverStaleClaims(db, now, locked))
  {
  }

  lemma ClaimQuiet(r: Recipient, initial: Message, command: Uuid, now: Time)
    requires initial.dispatch.Pending?
    ensures QuietMessages(r, Claim(r, initial, command, now))
  {
  }

  lemma ClaimHandsNothing(db: Database, command: Uuid, candidates: seq<Candidate>, now: Time, locked: set<RecipientId>)
    ensures var claim := ClaimRecipients(db, command, candidates, now, locked);
            claim.Some? ==> NothingHanded(db, claim.value.db)
  {
    var claim := ClaimRecipients(db, command, candidates, now, locked);
    if claim.Some? && !CommandExists(db, command) {
      forall i | 0 <= i < |db.recipients| ensures QuietMessages(db.recipients[i], claim.value.db.recipients[i]) {
        if i in claim.value.ids {
          ClaimQuiet(db.recipients[i],
                     InitialMessage(db, i, ClientIdFor(candidates, i), Sender(db.broadcast).value, now), command, now);
        }
      }
    } else {
      SameMessages(db, db);
    }
  }

  lemma PrepareHandsNothing(db: Database, id: RecipientId, templateAvailable: bool, now: Time)
    ensures match PrepareDispatch(db, id, templateAvailable, now)
            case Raises => true
            case Skip(after) => NothingHanded(db, after)
            case Dispatch(after, _) => NothingHanded(db, after)
  {
  }

  lemma {:induction false} RetryAllHandsNothing(db: Database, requests: seq<RetryRequest>, actor: UserId, now: Time)
    ensures |RetryAll(db, requests, actor, now).db.recipients| == |db.recipients|
    ensures NothingHanded(db, RetryAll(db, requests, actor, now).db)
  {
    if requests != [] {
      var shorter, request := requests[..|requests| - 1], requests[|requests| - 1];
      RetryAllHandsNothing(db, shorter, actor, now);
      var before := RetryAll(db, shorter, actor, now).db;
      if Retryable(before, request) {
        var after := RetryOne(before, request, actor, now);
        OneQuiet(before, request.recipient, after.recipients[request.recipient]);
        NothingHandedTransitive(db, before, after);
      }
    }
  }

  lemma StatusHandsNothing(db: Database, ref: MessageRef, provider: ProviderState, evidence: Evidence)
    ensures NothingHanded(db, DeliveryStatus(db, ref, provider, evidence))
  {
  }

  // ---- The histories ----

  predicate HandedOnce(s: System) {
    forall i, j | 0 <= i < j < |s.handed| :: s.handed[i].ref != s.handed[j].ref
  }

  predicate HandedLeft(s: System) {
    forall i | 0 <= i < |s.handed| :: HandedOver(s.db, s.handed[i].ref)
  }

  /** Calls come from started dispatches, and workers between start and answer are in the histories. */
  predicate WorkersTold(s: System) {
    && (forall i | 0 <= i < |s.calls| :: WasHanded(s, s.calls[i].ref))
    && (forall w | w in s.workers && s.workers[w].Dispatching? :: WasHanded(s, s.workers[w].start.ref))
    && (forall w | w in s.workers && s.workers[w].Answering? :: WasCalled(s, s.workers[w].ref))
  }

  ghost predicate LeftHanded(s: System) {
    forall ref | HandedOver(s.db, ref) :: WasHanded(s, ref)
  }

  ghost predicate SettledCalled(s: System) {
    forall ref | ValidRef(s.db, ref) && Settled(MessageAt(s.db, ref).dispatch) :: WasCalled(s, ref)
  }

  /** Started dispatches, calls and the workers in between account for every message that left the pending state. */
  ghost predicate Accounted(s: System) {
    HandedOnce(s) && HandedLeft(s) && WorkersTold(s) && LeftHanded(s) && SettledCalled(s)
  }

  /** Nothing of the histories changes, and no worker enters a provider call. */
  predicate SameHistories(s: System, t: System) {
    && t.handed == s.handed && t.calls == s.calls
    && forall w | w in t.workers && (t.workers[w].Dispatching? || t.workers[w].Answering?) ::
         w in s.workers && s.workers[w] == t.workers[w]
  }

  lemma QuietAccounted(s: System, t: System)
    requires DatabaseInv(s.db) && Accounted(s) && SameHistories(s, t)
    requires NothingHanded(s.db, t.db) && Evolves(s.db, t.db)
    ensures Accounted(t)
  {
    forall ref | WasHanded(s, ref) ensures WasHanded(t, ref) {
    }
    forall ref | WasCalled(s, ref) ensures WasCalled(t, ref) {
    }
    forall i | 0 <= i < |t.handed| ensures HandedOver(t.db, t.handed[i].ref) {
      RefPersists(s.db, t.db, s.handed[i].ref);
    }
    forall ref | HandedOver(t.db, ref) ensures WasHanded(t, ref) {
      assert QuietMessages(s.db.recipients[ref.recipient], t.db.recipients[ref.recipient]);
      assert HandedOver(s.db, ref);
    }
    forall ref | ValidRef(t.db, ref) && Settled(MessageAt(t.db, ref).dispatch) ensures WasCalled(t, ref) {
      assert QuietMessages(s.db.recipients[ref.recipient], t.db.recipients[ref.recipient]);
      assert ValidRef(s.db, ref) && Settled(MessageAt(s.db, ref).dispatch);
    }
  }

  // ---- Each kind of step ----

  lemma OperatorHandsNothing(s: System, a: Action)
    requires ByOperator(a)
    ensures SameHistories(s, Step(s, a)) && NothingHanded(s.db, Step(s, a).db)
  {
    SameMessages(s.db, s.db);
    match a
    case DoReplaceRecipients(command, ids, version) => ReplaceHandsNothing(s.db, command, ids, version);
    case DoConfirm(command, version, token, checks, actor, now) =>
      ConfirmHandsNothing(s.db, command, version, token, checks, actor, now);
    case DoRetry(command, requests, actor, templateAvailable, now) => RetryAllHandsNothing(s.db, requests, actor, now);
    case _ => SameMessages(s.db, Step(s, a).db);
  }

  lemma EnvironmentHandsNothing(s: System, a: Action)
    requires ByEnvironment(a)
    ensures SameHistories(s, Step(s, a)) && NothingHanded(s.db, Step(s, a).db)
  {
    if a.DeliveryStatusReceived? {
      StatusHandsNothing(s.db, a.ref, a.provider, a.evidence);
    } else {
      SameMessages(s.db, Step(s, a).db);
    }
  }

  predicate QuietWork(a: Action) {
    !ByOperator(a) && !ByEnvironment(a) && !a.DoStart? && !a.DoCall? && !a.DoReconcile?
  }

  lemma ClaimStepHandsNothing(s: System, w: WorkerId, now: Time, locked: set<RecipientId>)
    ensures SameHistories(s, StepClaim(s, w, now, locked)) && NothingHanded(s.db, StepClaim(s, w, now, locked).db)
  {
    SameMessages(s.db, s.db);
    if At(s, w).Reading? {
      ClaimHandsNothing(s.db, At(s, w).command, At(s, w).candidates, now, locked);
    }
  }

  lemma PrepareStepHandsNothing(s: System, w: WorkerId, templateAvailable: bool, now: Time)
    ensures var t := StepPrepare(s, w, templateAvailable, now);
            SameHistories(s, t) && NothingHanded(s.db, t.db)
  {
    SameMessages(s.db, s.db);
    if At(s, w).Draining? && At(s, w).queue != [] {
      PrepareHandsNothing(s.db, At(s, w).queue[0], templateAvailable, now);
    }
  }

  lemma FinishStepHandsNothing(s: System, w: WorkerId, now: Time)
    ensures SameHistories(s, StepFinish(s, w, now)) && NothingHanded(s.db, StepFinish(s, w, now).db)
  {
    SameMessages(s.db, StepFinish(s, w, now).db);
  }

  lemma WorkHandsNothing(s: System, a: Action)
    requires QuietWork(a)
    ensures SameHistories(s, Step(s, a)) && NothingHanded(s.db, Step(s, a).db)
  {
    match a
    case DoRecover(now, locked) => RecoverHandsNothing(s.db, now, locked);
    case DoClaim(w, now, locked) => ClaimStepHandsNothing(s, w, now, locked);
    case DoPrepare(w, templateAvailable, now) => PrepareStepHandsNothing(s, w, templateAvailable, now);
    case DoFinish(w, now) => FinishStepHandsNothing(s, w, now);
    case _ => SameMessages(s.db, s.db);
  }

  lemma StepEvolves(s: System, a: Action)
    requires SystemInv(s)
    ensures DatabaseInv(s.db) && Evolves(s.db, Step(s, a).db)
  {
    StepKeeps(s, a);
  }

  lemma StartAccounted(s: System, w: WorkerId, now: Time)
    requires DatabaseInv(s.db) && Accounted(s) && Evolves(s.db, StepStart(s, w, now).db)
    ensures Accounted(StepStart(s, w, now))
  {
    if StepStart(s, w, now).handed == s.handed {
      NotStartedHandsNothing(s, w, now);
      QuietAccounted(s, StepStart(s, w, now));
    } else {
      JustStarted(s, w, now);
      StartedAccounted(s, StepStart(s, w, now), w);
    }
  }

  lemma StartedAccounted(s: System, t: System, w: WorkerId)
    requires DatabaseInv(s.db) && Accounted(s) && Evolves(s.db, t.db) && Started(s, t, w)
    ensures Accounted(t)
  {
    HistoriesGrow(s, t);
    StartedTold(s, t, w);
    StartedLeft(s, t, At(s, w).ref);
  }

  /** What a start that hands over does to the system. */
  predicate Started(s: System, t: System, w: WorkerId) {
    && At(s, w).Admitted? && ValidRef(s.db, At(s, w).ref) && MessageAt(s.db, At(s, w).ref).dispatch.Pending?
    && t.db == WithRecipient(s.db, At(s, w).ref.recipient,
                             BroadcastModel.Start(s.db.recipients[At(s, w).ref.recipient], At(s, w).ref.rank))
    && |t.handed| == |s.handed| + 1 && s.handed <= t.handed && t.handed[|s.handed|].ref == At(s, w).ref
    && t.calls == s.calls
    && t.workers == s.workers[w := Dispatching(t.handed[|s.handed|], At(s, w).queue)]
  }

  lemma JustStarted(s: System, w: WorkerId, now: Time)
    requires StepStart(s, w, now).handed != s.handed
    ensures Started(s, StepStart(s, w, now), w)
  {
  }

  lemma HistoriesGrow(s: System, t: System)
    requires s.handed <= t.handed && s.calls <= t.calls
    ensures forall ref | WasHanded(s, ref) :: WasHanded(t, ref)
    ensures forall ref | WasCalled(s, ref) :: WasCalled(t, ref)
  {
    forall ref | WasHanded(s, ref) ensures WasHanded(t, ref) {
      var i :| 0 <= i < |s.handed| && s.handed[i].ref == ref;
      assert t.handed[i].ref == ref;
    }
    forall ref | WasCalled(s, ref) ensures WasCalled(t, ref) {
      var i :| 0 <= i < |s.calls| && s.calls[i].ref == ref;
      assert t.calls[i].ref == ref;
    }
  }

  lemma StartedTold(s: System, t: System, w: WorkerId)
    requires Started(s, t, w) && WorkersTold(s) && HandedOnce(s) && HandedLeft(s)
    requires forall ref | WasHanded(s, ref) :: WasHanded(t, ref)
    ensures WorkersTold(t) && HandedOnce(t)
  {
    assert WasHanded(t, t.handed[|s.handed|].ref);
    forall v | v in t.workers && t.workers[v].Answering? ensures WasCalled(t, t.workers[v].ref) {
      assert WasCalled(s, s.workers[v].ref);
    }
    forall i, j | 0 <= i < j < |t.handed| ensures t.handed[i].ref != t.handed[j].ref {
      assert HandedOver(s.db, s.handed[i].ref);
    }
  }

  lemma StartedLeft(s: System, t: System, ref: MessageRef)
    requires exists w :: Started(s, t, w) && At(s, w).ref == ref
    requires HandedLeft(s) && LeftHanded(s) && SettledCalled(s) && Evolves(s.db, t.db) && DatabaseInv(s.db)
    requires forall other | WasHanded(s, other) :: WasHanded(t, other)
    ensures HandedLeft(t) && LeftHanded(t) && SettledCalled(t)
  {
    HandedRef(s, t, ref);
    assert WasHanded(t, t.handed[|s.handed|].ref);
    forall i | 0 <= i < |t.handed| ensures HandedOver(t.db, t.handed[i].ref) {
      if i < |s.handed| {
        RefPersists(s.db, t.db, s.handed[i].ref);
      }
    }
    forall other | ValidRef(t.db, other) && Settled(MessageAt(t.db, other).dispatch) ensures WasCalled(t, other) {
      assert WasCalled(s, other);
    }
  }

  lemma NotStartedHandsNothing(s: System, w: WorkerId, now: Time)
    requires StepStart(s, w, now).handed == s.handed
    ensures SameHistories(s, StepStart(s, w, now)) && NothingHanded(s.db, StepStart(s, w, now).db)
  {
    SameMessages(s.db, s.db);
    assert |StepStart(s, w, now).handed| == |s.handed|;
    if At(s, w).Admitted? && ValidRef(s.db, At(s, w).ref) {
      SameMessages(s.db, StartDispatch(s.db, At(s, w).ref, now).db);
    }
  }

  /** Handing one message over changes no other. */
  lemma HandedRef(s: System, t: System, ref: MessageRef)
    requires ValidRef(s.db, ref) && MessageAt(s.db, ref).dispatch.Pending?
    requires t.db == WithRecipient(s.db, ref.recipient, BroadcastModel.Start(s.db.recipients[ref.recipient], ref.rank))
    ensures HandedOver(t.db, ref) && !Settled(MessageAt(t.db, ref).dispatch)
    ensures forall other | ValidRef(t.db, other) && other != ref ::
              ValidRef(s.db, other) && MessageAt(t.db, other).dispatch == MessageAt(s.db, other).dispatch
  {
  }

  lemma CallAccounted(s: System, w: WorkerId, answer: Answer)
    requires Accounted(s)
    ensures Accounted(StepCall(s, w, answer))
  {
    if At(s, w).Dispatching? {
      var t := StepCall(s, w, answer);
      var start := s.workers[w].start;
      HistoriesGrow(s, t);
      assert t.calls[|s.calls|] == start;
      assert WasCalled(t, start.ref) && WasHanded(s, start.ref);
    }
  }

  lemma ReconcileAccounted(s: System, w: WorkerId, now: Time)
    requires DatabaseInv(s.db) && Accounted(s) && Evolves(s.db, StepReconcile(s, w, now).db)
    ensures Accounted(StepReconcile(s, w, now))
  {
    if At(s, w).Answering? && ValidRef(s.db, At(s, w).ref) {
      ReconciledAccounted(s, StepReconcile(s, w, now), w, now);
    }
  }

  lemma ReconciledAccounted(s: System, t: System, w: WorkerId, now: Time)
    requires DatabaseInv(s.db) && Accounted(s) && Evolves(s.db, t.db)
    requires At(s, w).Answering? && ValidRef(s.db, At(s, w).ref)
    requires t == Move(s.(db := ReconcileAnswer(s.db, At(s, w).ref, At(s, w).answer, now)), w, Draining(At(s, w).queue))
    ensures Accounted(t)
  {
    ReconciledTold(s, t, w);
    ReconciledRef(s.db, At(s, w).ref, At(s, w).answer, now);
    ReconciledLeft(s, t, At(s, w).ref);
  }

  lemma ReconciledTold(s: System, t: System, w: WorkerId)
    requires WorkersTold(s) && t.handed == s.handed && t.calls == s.calls
    requires exists queue :: t.workers == s.workers[w := Draining(queue)]
    ensures WorkersTold(t)
  {
    forall i | 0 <= i < |t.calls| ensures WasHanded(t, t.calls[i].ref) {
      assert WasHanded(s, s.calls[i].ref);
    }
    forall v | v in t.workers && t.workers[v].Dispatching? ensures WasHanded(t, t.workers[v].start.ref) {
      assert WasHanded(s, s.workers[v].start.ref);
    }
    forall v | v in t.workers && t.workers[v].Answering? ensures WasCalled(t, t.workers[v].ref) {
      assert WasCalled(s, s.workers[v].ref);
    }
  }

  lemma ReconciledLeft(s: System, t: System, ref: MessageRef)
    requires HandedLeft(s) && LeftHanded(s) && SettledCalled(s) && WasCalled(s, ref)
    requires DatabaseInv(s.db) && Evolves(s.db, t.db) && t.handed == s.handed && t.calls == s.calls
    requires forall other | ValidRef(t.db, other) ::
               && ValidRef(s.db, other)
               && (HandedOver(t.db, other) ==> HandedOver(s.db, other))
               && (other != ref ==> MessageAt(t.db, other).dispatch == MessageAt(s.db, other).dispatch)
    ensures HandedLeft(t) && LeftHanded(t) && SettledCalled(t)
  {
    forall i | 0 <= i < |t.handed| ensures HandedOver(t.db, t.handed[i].ref) {
      RefPersists(s.db, t.db, s.handed[i].ref);
    }
    forall other | HandedOver(t.db, other) ensures WasHanded(t, other) {
      assert WasHanded(s, other);
    }
    forall other | ValidRef(t.db, other) && Settled(MessageAt(t.db, other).dispatch) ensures WasCalled(t, other) {
      assert WasCalled(s, other);
    }
  }

  /** A reconciliation changes no other message, and none that is pending. */
  lemma ReconciledRef(db: Database, ref: MessageRef, answer: Answer, now: Time)
    requires ValidRef(db, ref)
    ensures var after := ReconcileAnswer(db, ref, answer, now);
            forall other | ValidRef(after, other) ::
              && ValidRef(db, other)
              && (HandedOver(after, other) ==> HandedOver(db, other))
              && (other != ref ==> MessageAt(after, other).dispatch == MessageAt(db, other).dispatch)
  {
  }

  lemma StepAccounted(s: System, a: Action)
    requires SystemInv(s) && Accounted(s)
    ensures Accounted(Step(s, a))
  {
    StepEvolves(s, a);
    if ByOperator(a) {
      OperatorHandsNothing(s, a);
      QuietAccounted(s, Step(s, a));
    } else if ByEnvironment(a) {
      EnvironmentHandsNothing(s, a);
      QuietAccounted(s, Step(s, a));
    } else if a.DoStart? {
      StartAccounted(s, a.worker, a.now);
    } else if a.DoCall? {
      CallAccounted(s, a.worker, a.answer);
    } else if a.DoReconcile? {
      ReconcileAccounted(s, a.worker, a.now);
    } else {
      WorkHandsNothing(s, a);
      QuietAccounted(s, Step(s, a));
    }
  }

  lemma {:induction false} RunAccounted(s: System, actions: seq<Action>)
    requires Initial(s)
    ensures SystemInv(Run(s, actions)) && Accounted(Run(s, actions))
  {
    InitialInv(s);
    RunKeeps(s, actions);
    if actions != [] {
      RunAccounted(s, actions[..|actions| - 1]);
      StepAccounted(Run(s, actions[..|actions| - 1]), actions[|actions| - 1]);
    }
  }

  // ---- What blocked means ----

  /** An accepted or refused message was sent, in every run. */
  lemma OutcomeWasCalled(s: System, actions: seq<Action>, ref: MessageRef)
    requires Initial(s) && ValidRef(Run(s, actions).db, ref)
    requires Settled(MessageAt(Run(s, actions).db, ref).dispatch)
    ensures WasCalled(Run(s, actions), ref)
  {
    RunAccounted(s, actions);
  }

  function LatestRef(db: Database, i: RecipientId): MessageRef
    requires i < |db.recipients| && db.recipients[i].messages != []
  {
    MessageRef(i, |db.recipients[i].messages| - 1)
  }

  /**
   A blocked recipient's latest message was never handed over exactly when it is pending; then the
   provider has not seen it, and if it has an outcome the provider has.
   */
  lemma BlockedUnsentIff(s: System, actions: seq<Action>, i: RecipientId)
    requires Initial(s) && i < |Run(s, actions).db.recipients| && Run(s, actions).db.recipients[i].status.Blocked?
    ensures var t := Run(s, actions);
            && t.db.recipients[i].messages != []
            && var latest := LatestRef(t.db, i);
            && (!WasHanded(t, latest) <==> MessageAt(t.db, latest).dispatch.Pending?)
            && (!WasHanded(t, latest) ==> !WasCalled(t, latest))
            && (Settled(MessageAt(t.db, latest).dispatch) ==> WasCalled(t, latest))
  {
    RunAccounted(s, actions);
    BlockedAccounted(Run(s, actions), i);
  }

  lemma BlockedAccounted(t: System, i: RecipientId)
    requires SystemInv(t) && Accounted(t) && i < |t.db.recipients| && t.db.recipients[i].status.Blocked?
    ensures t.db.recipients[i].messages != []
    ensures var latest := LatestRef(t.db, i);
            && (!WasHanded(t, latest) <==> MessageAt(t.db, latest).dispatch.Pending?)
            && (!WasHanded(t, latest) ==> !WasCalled(t, latest))
            && (Settled(MessageAt(t.db, latest).dispatch) ==> WasCalled(t, latest))
  {
    assert RecipientInv(t.db.broadcast, i, t.db.recipients[i]);
    var latest := LatestRef(t.db, i);
    assert HandedOver(t.db, latest) <==> !MessageAt(t.db, latest).dispatch.Pending?;
  }

  /** A preparing or starting step that blocks the recipient. */
  predicate BlocksAt(s: System, a: Action, i: RecipientId) {
    && (a.DoPrepare? || a.DoStart?)
    && i < |s.db.recipients| && i < |Step(s, a).db.recipients| && s.db.recipients[i].messages != []
    && !s.db.recipients[i].status.Blocked? && Step(s, a).db.recipients[i].status.Blocked?
  }

  /**
   The step that blocks: preparing or starting leaves a recipient blocked whose latest message was
   handed over exactly when that message was no longer pending at that transaction.
   */
  lemma BlockingHandedOverIff(s: System, actions: seq<Action>, a: Action, i: RecipientId)
    requires Initial(s) && BlocksAt(Run(s, actions), a, i)
    ensures var before, after := Run(s, actions), Step(Run(s, actions), a);
            && after.db.recipients[i].messages == before.db.recipients[i].messages
            && (WasHanded(after, LatestRef(after.db, i)) <==> !Latest(before.db.recipients[i]).dispatch.Pending?)
  {
    RunAccounted(s, actions);
    BlockingStep(Run(s, actions), a, i);
  }

  lemma BlockingStep(s: System, a: Action, i: RecipientId)
    requires SystemInv(s) && Accounted(s) && BlocksAt(s, a, i)
    ensures Step(s, a).db.recipients[i].messages == s.db.recipients[i].messages
    ensures WasHanded(Step(s, a), LatestRef(Step(s, a).db, i)) <==> !Latest(s.db.recipients[i]).dispatch.Pending?
  {
    BlockingSize(s, a);
    BlockingKeepsMessages(s, a, i);
    StepKeeps(s, a);
    StepAccounted(s, a);
    BlockedLatest(Step(s, a), i, Latest(s.db.recipients[i]));
  }

  lemma BlockedLatest(t: System, i: RecipientId, latest: Message)
    requires SystemInv(t) && Accounted(t) && i < |t.db.recipients| && t.db.recipients[i].status.Blocked?
    requires t.db.recipients[i].messages != [] && Latest(t.db.recipients[i]) == latest
    ensures WasHanded(t, LatestRef(t.db, i)) <==> !latest.dispatch.Pending?
  {
    BlockedAccounted(t, i);
  }

  lemma BlockingSize(s: System, a: Action)
    requires a.DoPrepare? || a.DoStart?
    ensures |Step(s, a).db.recipients| == |s.db.recipients|
  {
  }

  lemma BlockingKeepsMessages(s: System, a: Action, i: RecipientId)
    requires SystemInv(s) && (a.DoPrepare? || a.DoStart?)
    requires i < |s.db.recipients| == |Step(s, a).db.recipients|
    requires !s.db.recipients[i].status.Blocked? && Step(s, a).db.recipients[i].status.Blocked?
    ensures Step(s, a).db.recipients[i].messages == s.db.recipients[i].messages
  {
    if a.DoPrepare? {
      if At(s, a.worker).Draining? && At(s, a.worker).queue != [] {
        PrepareKeepsMessages(s.db, At(s, a.worker).queue[0], a.templateAvailable, a.now, i);
      }
    } else if At(s, a.worker).Admitted? && ValidRef(s.db, At(s, a.worker).ref) {
      StartKeepsBlockedMessages(s.db, At(s, a.worker).ref, a.now, i);
    }
  }

  lemma PrepareKeepsMessages(db: Database, id: RecipientId, templateAvailable: bool, now: Time, i: RecipientId)
    requires i < |db.recipients|
    ensures match PrepareDispatch(db, id, templateAvailable, now)
            case Raises => true
            case Skip(after) => |after.recipients| == |db.recipients|
                                && after.recipients[i].messages == db.recipients[i].messages
            case Dispatch(after, _) => after == db
  {
  }

  lemma StartKeepsBlockedMessages(db: Database, ref: MessageRef, now: Time, i: RecipientId)
    requires DatabaseInv(db) && ValidRef(db, ref) && i < |db.recipients| && !db.recipients[i].status.Blocked?
    ensures var after := StartDispatch(db, ref, now).db;
            |after.recipients| == |db.recipients|
            && (after.recipients[i].status.Blocked? ==> after.recipients[i].messages == db.recipients[i].messages)
  {
    StartedStaysInProgress(db, ref, now);
  }

  lemma StartedStaysInProgress(db: Database, ref: MessageRef, now: Time)
    requires DatabaseInv(db) && ValidRef(db, ref)
    ensures StartDispatch(db, ref, now).Handed?
            ==> StartDispatch(db, ref, now).db.recipients[ref.recipient].status.InProgress?
  {
    if StartDispatch(db, ref, now).Handed? {
      assert RecipientInv(db.broadcast, ref.recipient, db.recipients[ref.recipient]);
      StartSound(db.recipients[ref.recipient]);
    }
  }

  // ---- Runs in which no worker stops ----

  predicate BeingSent(s: System, ref: MessageRef) {
    exists w | w in s.workers :: s.workers[w].Dispatching? && s.workers[w].start.ref == ref
  }

  /** Every started dispatch was called or has a worker about to call. */
  predicate NothingLost(s: System) {
    forall i | 0 <= i < |s.handed| :: WasCalled(s, s.handed[i].ref) || BeingSent(s, s.handed[i].ref)
  }

  lemma StepLosesNothing(s: System, a: Action)
    requires NothingLost(s) && !a.Crash?
    ensures NothingLost(Step(s, a))
  {
    var t := Step(s, a);
    forall i | 0 <= i < |t.handed| ensures WasCalled(t, t.handed[i].ref) || BeingSent(t, t.handed[i].ref) {
      if i < |s.handed| {
        NotLost(s, a, s.handed[i].ref);
        KeepsHanded(s, a);
      } else {
        JustHanded(s, a);
      }
    }
  }

  lemma KeepsHanded(s: System, a: Action)
    ensures s.handed <= Step(s, a).handed
  {
  }

  lemma JustHanded(s: System, a: Action)
    requires |Step(s, a).handed| > |s.handed|
    ensures |Step(s, a).handed| == |s.handed| + 1 && BeingSent(Step(s, a), Step(s, a).handed[|s.handed|].ref)
  {
    var t := Step(s, a);
    assert a.DoStart?;
    assert a.worker in t.workers;
  }

  lemma NotLost(s: System, a: Action, ref: MessageRef)
    requires !a.Crash? && (WasCalled(s, ref) || BeingSent(s, ref))
    ensures WasCalled(Step(s, a), ref) || BeingSent(Step(s, a), ref)
  {
    var t := Step(s, a);
    if WasCalled(s, ref) {
      var i :| 0 <= i < |s.calls| && s.calls[i].ref == ref;
      CallsGrow(s, a);
      assert t.calls[i].ref == ref;
    } else {
      var w :| w in s.workers && s.workers[w].Dispatching? && s.workers[w].start.ref == ref;
      if a.DoCall? && a.worker == w {
        assert t.calls[|s.calls|].ref == ref;
      } else {
        DispatchingStays(s, a, w);
      }
    }
  }

  lemma CallsGrow(s: System, a: Action)
    ensures s.calls <= Step(s, a).calls
  {
  }

  lemma DispatchingStays(s: System, a: Action, w: WorkerId)
    requires w in s.workers && s.workers[w].Dispatching? && !a.Crash? && !(a.DoCall? && a.worker == w)
    ensures w in Step(s, a).workers && Step(s, a).workers[w] == s.workers[w]
  {
  }

  lemma {:induction false} RunLosesNothing(s: System, actions: seq<Action>)
    requires Initial(s) && forall n | 0 <= n < |actions| :: !actions[n].Crash?
    ensures NothingLost(Run(s, actions))
  {
    if actions != [] {
      RunLosesNothing(s, actions[..|actions| - 1]);
      StepLosesNothing(Run(s, actions[..|actions| - 1]), actions[|actions| - 1]);
    }
  }

  /** Unless a worker stopped, a blocked recipient's message is unsent exactly when pending or just about to be sent. */
  lemma BlockedUncalledIff(s: System, actions: seq<Action>, i: RecipientId)
    requires Initial(s) && forall n | 0 <= n < |actions| :: !actions[n].Crash?
    requires i < |Run(s, actions).db.recipients| && Run(s, actions).db.recipients[i].status.Blocked?
    ensures var t := Run(s, actions);
            && t.db.recipients[i].messages != []
            && (!WasCalled(t, LatestRef(t.db, i))
                <==> MessageAt(t.db, LatestRef(t.db, i)).dispatch.Pending? || BeingSent(t, LatestRef(t.db, i)))
  {
    RunAccounted(s, actions);
    RunLosesNothing(s, actions);
    UncalledIff(Run(s, actions), i);
  }

  lemma UncalledIff(t: System, i: RecipientId)
    requires SystemInv(t) && Accounted(t) && NothingLost(t)
    requires i < |t.db.recipients| && t.db.recipients[i].status.Blocked?
    ensures t.db.recipients[i].messages != []
    ensures !WasCalled(t, LatestRef(t.db, i))
            <==> MessageAt(t.db, LatestRef(t.db, i)).dispatch.Pending? || BeingSent(t, LatestRef(t.db, i))
  {
    BlockedAccounted(t, i);
    NotBoth(t, LatestRef(t.db, i));
  }

  lemma NotBoth(t: System, ref: MessageRef)
    requires Exclusive(t)
    ensures !(BeingSent(t, ref) && WasCalled(t, ref))
  {
  }
}
