/**
 Who may still send: a recipient in progress carries the claim of a worker, unless a delivery
 status of an earlier attempt puts a blocked one in progress again.
 */
module DispatchClaims {
  import opened BroadcastModel
  import opened BroadcastTransactions
  import opened BroadcastInvariant
  import opened DispatchProtocol
  import opened DispatchSafety

  predicate ClaimsHeld(db: Database) {
    forall i | 0 <= i < |db.recipients| :: db.recipients[i].status.InProgress? ==> db.recipients[i].claimToken.Some?
  }

  lemma OneRecipientHolds(db: Database, id: RecipientId, r: Recipient)
    requires ClaimsHeld(db) && id < |db.recipients| && (r.status.InProgress? ==> r.claimToken.Some?)
    ensures ClaimsHeld(WithRecipient(db, id, r))
  {
  }

  lemma ClaimHolds(db: Database, command: Uuid, candidates: seq<Candidate>, now: Time, locked: set<RecipientId>)
    requires ClaimsHeld(db)
    ensures var claim := ClaimRecipients(db, command, candidates, now, locked);
            claim.Some? ==> ClaimsHeld(claim.value.db)
  {
  }

  lemma RecoverHolds(db: Database, now: Time, locked: set<RecipientId>)
    requires DatabaseInv(db) && ClaimsHeld(db)
    ensures ClaimsHeld(RecoverStaleClaims(db, now, locked))
  {
    forall i | 0 <= i < |db.recipients| && db.recipients[i].status.InProgress?
      ensures !Recover(db.recipients[i]).status.InProgress?
    {
      assert RecipientInv(db.broadcast, i, db.recipients[i]);
      RecoverSound(db.recipients[i]);
    }
  }

  lemma StartHolds(db: Database, ref: MessageRef, now: Time)
    requires DatabaseInv(db) && ClaimsHeld(db) && ValidRef(db, ref)
    ensures ClaimsHeld(StartDispatch(db, ref, now).db)
  {
    var r := db.recipients[ref.recipient];
    assert RecipientInv(db.broadcast, ref.recipient, r);
    if StartAllowed(db, ref, now) && MessageAt(db, ref).dispatch.Pending? {
      OneRecipientHolds(db, ref.recipient, BroadcastModel.Start(r, ref.rank));
    }
  }

  lemma ReconcileHolds(db: Database, ref: MessageRef, answer: Answer, now: Time)
    requires DatabaseInv(db) && ClaimsHeld(db) && ValidRef(db, ref)
    ensures ClaimsHeld(ReconcileAnswer(db, ref, answer, now))
  {
    assert RecipientInv(db.broadcast, ref.recipient, db.recipients[ref.recipient]);
    ReconcileSound(db.recipients[ref.recipient], ref.rank, answer, now);
    OneRecipientHolds(db, ref.recipient, Reconcile(db.recipients[ref.recipient], ref.rank, answer, now));
  }

  lemma {:induction false} RetryAllHolds(db: Database, requests: seq<RetryRequest>, actor: UserId, now: Time)
    requires ClaimsHeld(db)
    ensures ClaimsHeld(RetryAll(db, requests, actor, now).db)
  {
    if requests != [] {
      RetryAllHolds(db, requests[..|requests| - 1], actor, now);
      var before := RetryAll(db, requests[..|requests| - 1], actor, now).db;
      var request := requests[|requests| - 1];
      if Retryable(before, request) {
        OneRecipientHolds(before, request.recipient,
                          RetryOne(before, request, actor, now).recipients[request.recipient]);
      }
    }
  }

  lemma DraftStepHolds(s: System, a: Action)
    requires ClaimsHeld(s.db) && ByOperator(a) && !a.DoRetry?
    ensures ClaimsHeld(Step(s, a).db)
  {
    if a.DoReplaceRecipients? {
      SelectedRows(s.db, a.ids);
    }
  }

  lemma OperatorStepHolds(s: System, a: Action)
    requires ClaimsHeld(s.db) && ByOperator(a)
    ensures ClaimsHeld(Step(s, a).db)
  {
    if a.DoRetry? {
      RetryAllHolds(s.db, a.requests, a.actor, a.now);
    } else {
      DraftStepHolds(s, a);
    }
  }

  lemma ClaimStepHolds(s: System, w: WorkerId, now: Time, locked: set<RecipientId>)
    requires ClaimsHeld(s.db)
    ensures ClaimsHeld(StepClaim(s, w, now, locked).db)
  {
    if At(s, w).Reading? {
      ClaimHolds(s.db, At(s, w).command, At(s, w).candidates, now, locked);
    }
  }

  lemma BlockHolds(db: Database, id: RecipientId, reason: BlockReason)
    requires ClaimsHeld(db) && id < |db.recipients|
    ensures ClaimsHeld(BlockRecipient(db, id, reason))
  {
    OneRecipientHolds(db, id, Block(db.recipients[id], reason));
  }

  lemma PrepareStepHolds(s: System, w: WorkerId, templateAvailable: bool, now: Time)
    requires ClaimsHeld(s.db)
    ensures ClaimsHeld(StepPrepare(s, w, templateAvailable, now).db)
  {
    if At(s, w).Draining? && At(s, w).queue != [] {
      var id := At(s, w).queue[0];
      var prepared := PrepareDispatch(s.db, id, templateAvailable, now);
      if id < |s.db.recipients| && prepared.Skip? {
        BlockHolds(s.db, id, TemplateUnavailable);
        BlockHolds(s.db, id, ConsentOrPhoneChanged);
        BlockHolds(s.db, id, AttemptAlreadyExists);
      }
    }
  }

  lemma StartStepHolds(s: System, w: WorkerId, now: Time)
    requires SystemInv(s) && ClaimsHeld(s.db)
    ensures ClaimsHeld(StepStart(s, w, now).db)
  {
    if At(s, w).Admitted? && ValidRef(s.db, At(s, w).ref) {
      StartHolds(s.db, At(s, w).ref, now);
    }
  }

  lemma ReconcileStepHolds(s: System, w: WorkerId, now: Time)
    requires SystemInv(s) && ClaimsHeld(s.db)
    ensures ClaimsHeld(StepReconcile(s, w, now).db)
  {
    if At(s, w).Answering? && ValidRef(s.db, At(s, w).ref) {
      ReconcileHolds(s.db, At(s, w).ref, At(s, w).answer, now);
    }
  }

  lemma FinishStepHolds(s: System, w: WorkerId, now: Time)
    requires ClaimsHeld(s.db)
    ensures ClaimsHeld(StepFinish(s, w, now).db)
  {
  }

  lemma WorkerStepHolds(s: System, a: Action)
    requires SystemInv(s) && ClaimsHeld(s.db) && !ByOperator(a) && !ByEnvironment(a)
    ensures ClaimsHeld(Step(s, a).db)
  {
    match a
    case DoRecover(now, locked) => RecoverHolds(s.db, now, locked);
    case DoClaim(w, now, locked) => ClaimStepHolds(s, w, now, locked);
    case DoPrepare(w, templateAvailable, now) => PrepareStepHolds(s, w, templateAvailable, now);
    case DoStart(w, now) => StartStepHolds(s, w, now);
    case DoReconcile(w, now) => ReconcileStepHolds(s, w, now);
    case DoFinish(w, now) => FinishStepHolds(s, w, now);
    case _ => NothingWritten(s, a);
  }

  // ---- Delivery statuses ----

  /**
   A delivery status can put an unclaimed recipient in progress, and does exactly when it was
   blocked while its latest message is in flight and the status is for an earlier, accepted one.
   */
  lemma StatusReopensIff(r: Recipient, rank: nat, provider: ProviderState, evidence: Evidence)
    requires Sound(r) && rank < |r.messages|
    ensures var s := Notify(r, rank, provider, evidence);
            s.status.InProgress? && !r.status.InProgress?
            <==> r.status.Blocked? && Latest(r).dispatch.InProgress? && r.messages[rank].externalId.Some?
  {
  }

  /** The delivery statuses that do so. */
  predicate Reopens(db: Database, a: Action) {
    && a.DeliveryStatusReceived? && ValidRef(db, a.ref)
    && var r := db.recipients[a.ref.recipient];
    r.status.Blocked? && Latest(r).dispatch.InProgress? && r.messages[a.ref.rank].externalId.Some?
  }

  lemma StatusHolds(db: Database, a: Action)
    requires DatabaseInv(db) && ClaimsHeld(db) && a.DeliveryStatusReceived? && !Reopens(db, a)
    ensures ClaimsHeld(DeliveryStatus(db, a.ref, a.provider, a.evidence))
  {
    if ValidRef(db, a.ref) {
      var r := db.recipients[a.ref.recipient];
      assert RecipientInv(db.broadcast, a.ref.recipient, r);
      StatusReopensIff(r, a.ref.rank, a.provider, a.evidence);
      OneRecipientHolds(db, a.ref.recipient, Notify(r, a.ref.rank, a.provider, a.evidence));
    }
  }

  lemma StepHolds(s: System, a: Action)
    requires SystemInv(s) && ClaimsHeld(s.db) && !Reopens(s.db, a)
    ensures ClaimsHeld(Step(s, a).db)
  {
    if ByOperator(a) {
      OperatorStepHolds(s, a);
    } else if !ByEnvironment(a) {
      WorkerStepHolds(s, a);
    } else if a.DeliveryStatusReceived? {
      StatusHolds(s.db, a);
    }
  }

  predicate NothingRemains(db: Database) {
    forall i | 0 <= i < |db.recipients| :: !Remaining(db.recipients[i])
  }

  lemma HeldAndCompleted(db: Database)
    requires DatabaseInv(db) && ClaimsHeld(db) && db.broadcast.status.Completed?
    ensures NothingRemains(db)
  {
    forall i | 0 <= i < |db.recipients| ensures !Remaining(db.recipients[i]) {
      assert RecipientInv(db.broadcast, i, db.recipients[i]);
    }
  }

  /** No status of the run reopens a recipient; a run without statuses is one. */
  predicate NoneReopens(s: System, actions: seq<Action>) {
    forall n | 0 <= n < |actions| :: !Reopens(Run(s, actions[..n]).db, actions[n])
  }

  lemma NoneReopensBefore(s: System, actions: seq<Action>)
    requires NoneReopens(s, actions) && actions != []
    ensures var earlier := actions[..|actions| - 1];
            NoneReopens(s, earlier) && !Reopens(Run(s, earlier).db, actions[|actions| - 1])
  {
    var earlier := actions[..|actions| - 1];
    assert forall n | 0 <= n < |earlier| :: earlier[..n] == actions[..n];
  }

  lemma {:induction false} RunHolds(s: System, actions: seq<Action>)
    requires Initial(s) && NoneReopens(s, actions)
    ensures SystemInv(Run(s, actions)) && ClaimsHeld(Run(s, actions).db)
  {
    InitialInv(s);
    RunKeeps(s, actions);
    if actions != [] {
      var earlier := actions[..|actions| - 1];
      NoneReopensBefore(s, actions);
      RunHolds(s, earlier);
      StepHolds(Run(s, earlier), actions[|actions| - 1]);
    }
  }

  /**
   As long as no status reopens a recipient, every recipient in progress is claimed, and a completed
   broadcast has none left.
   */
  lemma ClaimedWhileInProgress(s: System, actions: seq<Action>)
    requires Initial(s) && NoneReopens(s, actions)
    ensures var db := Run(s, actions).db;
            ClaimsHeld(db) && (db.broadcast.status.Completed? ==> NothingRemains(db))
  {
    RunHolds(s, actions);
    if Run(s, actions).db.broadcast.status.Completed? {
      HeldAndCompleted(Run(s, actions).db);
    }
  }

  /**
   What is left of a completed broadcast by a status that reopens: still completed, one recipient
   unclaimed in progress.
   */
  lemma ReopenedWhileCompleted(s: System, actions: seq<Action>, a: Action)
    requires Initial(s) && Run(s, actions).db.broadcast.status.Completed? && Reopens(Run(s, actions).db, a)
    ensures var db := Step(Run(s, actions), a).db;
            && db.broadcast.status.Completed? && a.ref.recipient < |db.recipients|
            && db.recipients[a.ref.recipient].status.InProgress? && db.recipients[a.ref.recipient].claimToken.None?
  {
    InitialInv(s);
    RunKeeps(s, actions);
    var db := Run(s, actions).db;
    var r := db.recipients[a.ref.recipient];
    assert RecipientInv(db.broadcast, a.ref.recipient, r);
    StatusReopensIff(r, a.ref.rank, a.provider, a.evidence);
  }

  /**
   From a completed broadcast with nothing left, a step that leaves it completed leaves something
   remaining exactly when it is a status that reopens.
   */
  lemma CompletedStaysIdleIff(s: System, actions: seq<Action>, a: Action)
    requires Initial(s) && NothingRemains(Run(s, actions).db)
    requires Step(Run(s, actions), a).db.broadcast.status.Completed? && Run(s, actions).db.broadcast.status.Completed?
    ensures NothingRemains(Step(Run(s, actions), a).db) <==> !Reopens(Run(s, actions).db, a)
  {
    InitialInv(s);
    RunKeeps(s, actions);
    var before := Run(s, actions);
    if Reopens(before.db, a) {
      ReopenedWhileCompleted(s, actions, a);
    } else {
      StepHolds(before, a);
      StepKeeps(before, a);
      HeldAndCompleted(Step(before, a).db);
    }
  }
}
