/**
 Safety of the dispatch protocol over every run: each message reaches the provider at most once,
 only with consent in force when its dispatch started, and only with a payload that replays.
 */
module DispatchSafety {
  import opened Wrappers
  import opened BroadcastModel
  import opened BroadcastTransactions
  import opened BroadcastInvariant
  import opened DispatchProtocol
  import Consent
  import Payload

  /** The message left the pending state and what it stores can be replayed by the dispatcher. */
  predicate HandedOver(db: Database, ref: MessageRef) {
    ValidRef(db, ref) && !MessageAt(db, ref).dispatch.Pending?
  }

  predicate Sendable(db: Database, ref: MessageRef) {
    && ValidRef(db, ref)
    && Payload.Replayable(db.broadcast.template)
    && db.broadcast.startedBy == Some(MessageAt(db, ref).row.sentBy)
  }

  /** What the start of a dispatch saw: consent in force, and a live customer who still has the phone. */
  predicate Consented(db: Database, start: Start) {
    && start.ref.recipient < |db.recipients|
    && start.key == ConsentKey(db.recipients[start.ref.recipient])
    && start.owner == Some(Customer(Some(start.key.phone), false))
    && start.consents <= |db.consents|
    && Consent.OptedIn(db.consents[..start.consents], start.key, start.at)
  }

  predicate GoodStart(db: Database, start: Start) {
    HandedOver(db, start.ref) && Sendable(db, start.ref) && Consented(db, start)
  }

  predicate WorkerInv(db: Database, worker: Worker) {
    && (!worker.Idle? && !worker.Reading? ==> db.broadcast.startedBy.Some?)
    && match worker
       case Holding(plan, _) => PlanMatches(db, plan)
       case Admitted(ref, _) => Sendable(db, ref)
       case Dispatching(start, _) => GoodStart(db, start)
       case Answering(ref, _, _) => ValidRef(db, ref)
       case _ => true
  }

  /** No two workers dispatch the same message, and none dispatches one already sent. */
  predicate Exclusive(s: System) {
    && (forall i, j | 0 <= i < j < |s.calls| :: s.calls[i].ref != s.calls[j].ref)
    && (forall w, i | w in s.workers && s.workers[w].Dispatching? && 0 <= i < |s.calls| ::
          s.calls[i].ref != s.workers[w].start.ref)
    && (forall v, w | v in s.workers && w in s.workers && v != w
                      && s.workers[v].Dispatching? && s.workers[w].Dispatching? ::
          s.workers[v].start.ref != s.workers[w].start.ref)
  }

  predicate SystemInv(s: System) {
    && DatabaseInv(s.db)
    && (forall w | w in s.workers :: WorkerInv(s.db, s.workers[w]))
    && (forall i | 0 <= i < |s.calls| :: GoodStart(s.db, s.calls[i]))
    && Exclusive(s)
  }

  // ---- Facts about messages outlive every transaction ----

  lemma RefPersists(db: Database, after: Database, ref: MessageRef)
    requires DatabaseInv(db) && Evolves(db, after) && ValidRef(db, ref)
    ensures ValidRef(after, ref) && Advances(MessageAt(db, ref), MessageAt(after, ref))
    ensures HandedOver(db, ref) ==> HandedOver(after, ref)
    ensures Sendable(db, ref) ==> Sendable(after, ref)
    ensures ConsentKey(after.recipients[ref.recipient]) == ConsentKey(db.recipients[ref.recipient])
  {
    var r := db.recipients[ref.recipient];
    assert RecipientInv(db.broadcast, ref.recipient, r);
    assert MessagesAdvance(r, after.recipients[ref.recipient]);
    assert Advances(r.messages[ref.rank], after.recipients[ref.recipient].messages[ref.rank]);
    assert SameSelection(r, after.recipients[ref.recipient]);
  }

  lemma StartPersists(db: Database, after: Database, start: Start)
    requires DatabaseInv(db) && Evolves(db, after) && GoodStart(db, start)
    ensures GoodStart(after, start)
  {
    RefPersists(db, after, start.ref);
    assert after.consents[..start.consents] == db.consents[..start.consents];
  }

  lemma WorkerPersists(db: Database, after: Database, worker: Worker)
    requires DatabaseInv(db) && Evolves(db, after) && WorkerInv(db, worker)
    ensures WorkerInv(after, worker)
  {
    match worker
    case Holding(plan, _) => PlanStillMatches(db, after, plan);
    case Admitted(ref, _) => RefPersists(db, after, ref);
    case Dispatching(start, _) => StartPersists(db, after, start);
    case Answering(ref, _, _) => RefPersists(db, after, ref);
    case _ =>
  }

  /** A transaction that involves no worker. */
  lemma TransactionKeeps(s: System, after: Database)
    requires SystemInv(s) && DatabaseInv(after) && Evolves(s.db, after)
    ensures SystemInv(s.(db := after))
  {
    forall w | w in s.workers ensures WorkerInv(after, s.workers[w]) {
      WorkerPersists(s.db, after, s.workers[w]);
    }
    forall i | 0 <= i < |s.calls| ensures GoodStart(after, s.calls[i]) {
      StartPersists(s.db, after, s.calls[i]);
    }
  }

  /** A transaction after which one worker moves to a state that is not dispatching. */
  lemma MoveKeeps(s: System, after: Database, w: WorkerId, worker: Worker)
    requires SystemInv(s) && DatabaseInv(after) && Evolves(s.db, after)
    requires WorkerInv(after, worker) && !worker.Dispatching?
    ensures SystemInv(Move(s.(db := after), w, worker))
  {
    TransactionKeeps(s, after);
  }

  predicate StepKept(s: System, t: System) {
    SystemInv(t) && Evolves(s.db, t.db)
  }

  // ---- Each kind of step ----

  lemma TryKeeps(s: System, db: Option<Database>)
    requires SystemInv(s)
    requires db.Some? ==> DatabaseInv(db.value) && Evolves(s.db, db.value)
    ensures StepKept(s, Try(s, db))
  {
    EvolvesReflexive(s.db);
    if db.Some? {
      TransactionKeeps(s, db.value);
    }
  }

  lemma ValidateStepKeeps(s: System, version: nat, checks: Checks, token: Uuid, now: Time)
    requires SystemInv(s)
    ensures StepKept(s, StepValidate(s, version, checks, token, now))
  {
    ValidateKeeps(s.db, version, checks, token, now);
    TryKeeps(s, Validate(s.db, version, checks, token, now));
    EvolvesReflexive(s.db);
  }

  lemma AllRecipientsUntouched(db: Database, after: Database)
    requires DatabaseInv(db)
    requires after.recipients == db.recipients && after.broadcast == db.broadcast && after.settings == db.settings
    requires db.audits <= after.audits && db.consents <= after.consents
    ensures DatabaseInv(after) && Evolves(db, after)
  {
  }

  lemma ClaimStepKeeps(s: System, w: WorkerId, now: Time, locked: set<RecipientId>)
    requires SystemInv(s)
    ensures StepKept(s, StepClaim(s, w, now, locked))
  {
    EvolvesReflexive(s.db);
    if At(s, w).Reading? && !CommandExists(s.db, At(s, w).command) {
      var claim := ClaimRecipients(s.db, At(s, w).command, At(s, w).candidates, now, locked);
      ClaimKeeps(s.db, At(s, w).command, At(s, w).candidates, now, locked);
      if claim.Some? {
        MoveKeeps(s, claim.value.db, w, Draining(claim.value.ids));
      } else {
        MoveKeeps(s, s.db, w, Idle);
      }
    }
  }

  lemma PrepareStepKeeps(s: System, w: WorkerId, templateAvailable: bool, now: Time)
    requires SystemInv(s)
    ensures StepKept(s, StepPrepare(s, w, templateAvailable, now))
  {
    EvolvesReflexive(s.db);
    var worker := At(s, w);
    if worker.Draining? && worker.queue != [] {
      PrepareKeeps(s.db, worker.queue[0], templateAvailable, now);
      match PrepareDispatch(s.db, worker.queue[0], templateAvailable, now)
      case Skip(db) => MoveKeeps(s, db, w, Draining(worker.queue[1..]));
      case Dispatch(db, plan) => MoveKeeps(s, db, w, Holding(plan, worker.queue[1..]));
    }
  }

  /** The plan's row is found, is the one the plan was built from, and replays. */
  lemma AdmittedIsSendable(db: Database, plan: Plan, ref: MessageRef)
    requires DatabaseInv(db) && PlanMatches(db, plan) && Admits(db, plan, ref)
    ensures Sendable(db, ref) && ref.recipient == plan.recipient
    ensures plan.input.retryOf == MessageAt(db, ref).row.retryOf
  {
    var row := MessageAt(db, ref).row;
    assert RecipientInv(db.broadcast, ref.recipient, db.recipients[ref.recipient]);
    assert row == Payload.StoredRow(db.broadcast.template, ref.recipient, db.recipients[ref.recipient].phone,
                                    row.clientId, row.sentBy, row.retryOf);
    Payload.ReplaysIff(db.broadcast.template, ref.recipient, row.conversation, row.clientId, row.sentBy,
                       db.broadcast.startedBy.value, row.retryOf);
  }

  lemma AdmitStepKeeps(s: System, w: WorkerId, ref: MessageRef)
    requires SystemInv(s)
    ensures StepKept(s, StepAdmit(s, w, ref))
  {
    EvolvesReflexive(s.db);
    var worker := At(s, w);
    if StepAdmit(s, w, ref) != s {
      if Admits(s.db, worker.plan, ref) {
        AdmittedIsSendable(s.db, worker.plan, ref);
      }
      MoveKeeps(s, s.db, w, StepAdmit(s, w, ref).workers[w]);
    }
  }

  lemma StartIsGood(db: Database, ref: MessageRef, now: Time)
    requires DatabaseInv(db) && Sendable(db, ref) && StartDispatch(db, ref, now).Handed?
    ensures GoodStart(StartDispatch(db, ref, now).db, StartOf(db, ref, now))
  {
    assert db.consents[..|db.consents|] == db.consents;
    StartKeeps(db, ref, now);
    RefPersists(db, StartDispatch(db, ref, now).db, ref);
  }

  lemma HandedKeeps(s: System, w: WorkerId, now: Time)
    requires SystemInv(s) && At(s, w).Admitted? && ValidRef(s.db, At(s, w).ref)
    requires StartDispatch(s.db, At(s, w).ref, now).Handed?
    ensures StepKept(s, StepStart(s, w, now))
  {
    var ref := At(s, w).ref;
    assert WorkerInv(s.db, s.workers[w]);
    StartKeeps(s.db, ref, now);
    StartIsGood(s.db, ref, now);
    NobodyHadIt(s, ref);
    TransactionKeeps(s, StartDispatch(s.db, ref, now).db);
  }

  lemma StartStepKeeps(s: System, w: WorkerId, now: Time)
    requires SystemInv(s)
    ensures StepKept(s, StepStart(s, w, now))
  {
    EvolvesReflexive(s.db);
    var worker := At(s, w);
    if worker.Admitted? && ValidRef(s.db, worker.ref) {
      StartKeeps(s.db, worker.ref, now);
      var started := StartDispatch(s.db, worker.ref, now);
      if started.Handed? {
        HandedKeeps(s, w, now);
      } else {
        MoveKeeps(s, started.db, w, Draining(worker.queue));
      }
    }
  }

  /** Nobody is dispatching a message that is still pending, and it was never sent. */
  lemma NobodyHadIt(s: System, ref: MessageRef)
    requires SystemInv(s) && ValidRef(s.db, ref) && MessageAt(s.db, ref).dispatch.Pending?
    ensures forall v | v in s.workers && s.workers[v].Dispatching? :: s.workers[v].start.ref != ref
    ensures forall i | 0 <= i < |s.calls| :: s.calls[i].ref != ref
  {
    forall v | v in s.workers && s.workers[v].Dispatching? ensures s.workers[v].start.ref != ref {
      assert WorkerInv(s.db, s.workers[v]);
    }
  }

  lemma CallStepKeeps(s: System, w: WorkerId, answer: Answer)
    requires SystemInv(s)
    ensures StepKept(s, StepCall(s, w, answer))
  {
    EvolvesReflexive(s.db);
    if At(s, w).Dispatching? {
      CallKeepsExclusive(s, w, answer);
      var t := StepCall(s, w, answer);
      assert WorkerInv(s.db, s.workers[w]);
      forall v | v in t.workers ensures WorkerInv(t.db, t.workers[v]) {
        assert v != w ==> WorkerInv(s.db, s.workers[v]);
      }
    }
  }

  /** The call moves the message from the worker that dispatches it to the history of calls. */
  lemma CallKeepsExclusive(s: System, w: WorkerId, answer: Answer)
    requires Exclusive(s) && At(s, w).Dispatching?
    ensures Exclusive(StepCall(s, w, answer))
  {
  }

  lemma ReconcileStepKeeps(s: System, w: WorkerId, now: Time)
    requires SystemInv(s)
    ensures StepKept(s, StepReconcile(s, w, now))
  {
    EvolvesReflexive(s.db);
    var worker := At(s, w);
    if worker.Answering? && ValidRef(s.db, worker.ref) {
      ReconcileKeeps(s.db, worker.ref, worker.answer, now);
      MoveKeeps(s, ReconcileAnswer(s.db, worker.ref, worker.answer, now), w, Draining(worker.queue));
    }
  }

  lemma FinishStepKeeps(s: System, w: WorkerId, now: Time)
    requires SystemInv(s)
    ensures StepKept(s, StepFinish(s, w, now))
  {
    EvolvesReflexive(s.db);
    if At(s, w) == Draining([]) {
      assert WorkerInv(s.db, s.workers[w]);
      CompleteKeeps(s.db, now);
      MoveKeeps(s, CompleteIfIdle(s.db, now), w, Idle);
    }
  }

  lemma CrashStepKeeps(s: System, w: WorkerId)
    requires SystemInv(s)
    ensures StepKept(s, Move(s, w, Idle))
  {
    EvolvesReflexive(s.db);
    MoveKeeps(s, s.db, w, Idle);
  }

  lemma RecoverStepKeeps(s: System, now: Time, locked: set<RecipientId>)
    requires SystemInv(s)
    ensures StepKept(s, s.(db := RecoverStaleClaims(s.db, now, locked)))
  {
    RecoverStaleClaimsKeeps(s.db, now, locked);
    TransactionKeeps(s, RecoverStaleClaims(s.db, now, locked));
  }

  lemma WorkerStepKeeps(s: System, a: Action)
    requires SystemInv(s) && !ByOperator(a) && !ByEnvironment(a)
    ensures StepKept(s, Step(s, a))
  {
    match a
    case DoRead(w, command, clientIds) => ReadStepKeeps(s, w, command, clientIds);
    case DoClaim(w, now, locked) => ClaimStepKeeps(s, w, now, locked);
    case DoPrepare(w, templateAvailable, now) => PrepareStepKeeps(s, w, templateAvailable, now);
    case DoAdmit(w, ref) => AdmitStepKeeps(s, w, ref);
    case DoStart(w, now) => StartStepKeeps(s, w, now);
    case DoCall(w, answer) => CallStepKeeps(s, w, answer);
    case DoReconcile(w, now) => ReconcileStepKeeps(s, w, now);
    case DoFinish(w, now) => FinishStepKeeps(s, w, now);
    case Crash(w) => CrashStepKeeps(s, w);
    case DoRecover(now, locked) => RecoverStepKeeps(s, now, locked);
  }

  lemma ReadStepKeeps(s: System, w: WorkerId, command: Uuid, clientIds: seq<Uuid>)
    requires SystemInv(s)
    ensures StepKept(s, StepRead(s, w, command, clientIds))
  {
    EvolvesReflexive(s.db);
    if StepRead(s, w, command, clientIds) != s {
      MoveKeeps(s, s.db, w, StepRead(s, w, command, clientIds).workers[w]);
    }
  }

  lemma OperatorStepKeeps(s: System, a: Action)
    requires SystemInv(s) && ByOperator(a)
    ensures StepKept(s, Step(s, a))
  {
    match a
    case DoReplaceRecipients(command, ids, version) =>
      ReplaceRecipientsKeeps(s.db, command, ids, version);
      TryKeeps(s, ReplaceRecipients(s.db, command, ids, version));
    case DoUpdateDraft(draft, template, version) =>
      UpdateDraftKeeps(s.db, draft, template, version);
      TryKeeps(s, UpdateDraft(s.db, draft, template, version));
    case DoValidate(version, checks, token, now) => ValidateStepKeeps(s, version, checks, token, now);
    case DoConfirm(command, version, token, checks, actor, now) =>
      ConfirmKeeps(s.db, command, version, token, checks, actor, now);
      TryKeeps(s, Confirm(s.db, command, version, token, checks, actor, now));
    case DoLaunch(command, actor) =>
      LaunchKeeps(s.db, command, actor);
      TryKeeps(s, Launch(s.db, command, actor));
    case DoRetry(command, requests, actor, templateAvailable, now) =>
      RetryFailedKeeps(s.db, command, requests, actor, templateAvailable, now);
      TryKeeps(s, RetryFailed(s.db, command, requests, actor, templateAvailable, now));
  }

  /** Changes around the broadcast; the consent log only grows. */
  lemma WorldStepKeeps(s: System, after: Database)
    requires SystemInv(s) && s.db.consents <= after.consents
    requires after == s.db.(customers := after.customers, consents := after.consents,
                            conversations := after.conversations, activeUsers := after.activeUsers)
    ensures StepKept(s, s.(db := after))
  {
    AllRecipientsUntouched(s.db, after);
    TransactionKeeps(s, after);
  }

  lemma StatusStepKeeps(s: System, ref: MessageRef, provider: ProviderState, evidence: Evidence)
    requires SystemInv(s)
    ensures StepKept(s, s.(db := DeliveryStatus(s.db, ref, provider, evidence)))
  {
    DeliveryStatusKeeps(s.db, ref, provider, evidence);
    TransactionKeeps(s, DeliveryStatus(s.db, ref, provider, evidence));
  }

  /** What the environment changes apart from delivery states. */
  lemma WorldChanges(s: System, a: Action)
    requires ByEnvironment(a) && !a.DeliveryStatusReceived?
    ensures var after := Step(s, a).db;
            && Step(s, a) == s.(db := after) && s.db.consents <= after.consents
            && after == s.db.(customers := after.customers, consents := after.consents,
                              conversations := after.conversations, activeUsers := after.activeUsers)
  {
  }

  lemma EnvironmentStepKeeps(s: System, a: Action)
    requires SystemInv(s) && ByEnvironment(a)
    ensures StepKept(s, Step(s, a))
  {
    if a.DeliveryStatusReceived? {
      StatusStepKeeps(s, a.ref, a.provider, a.evidence);
    } else {
      WorldChanges(s, a);
      WorldStepKeeps(s, Step(s, a).db);
    }
  }

  /** The inductive step: one transaction of anyone keeps the invariant and only moves forward. */
  lemma StepKeeps(s: System, a: Action)
    requires SystemInv(s)
    ensures SystemInv(Step(s, a)) && Evolves(s.db, Step(s, a).db)
  {
    if ByOperator(a) {
      OperatorStepKeeps(s, a);
    } else if ByEnvironment(a) {
      EnvironmentStepKeeps(s, a);
    } else {
      WorkerStepKeeps(s, a);
    }
  }

  lemma {:induction false} RunKeeps(s: System, actions: seq<Action>)
    requires SystemInv(s)
    ensures SystemInv(Run(s, actions)) && Evolves(s.db, Run(s, actions).db)
  {
    if actions == [] {
      EvolvesReflexive(s.db);
    } else {
      var before := Run(s, actions[..|actions| - 1]);
      RunKeeps(s, actions[..|actions| - 1]);
      StepKeeps(before, actions[|actions| - 1]);
      EvolvesTransitive(s.db, before.db, Run(s, actions).db);
    }
  }

  lemma InitialInv(s: System)
    requires Initial(s)
    ensures SystemInv(s)
  {
  }
}
