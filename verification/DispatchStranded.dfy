/**
 Recipients in progress that nobody has claimed: recovery never takes them back, and as long as no
 worker that already had the recipient frees it, its broadcast never completes.
 */
module DispatchStranded {
  import opened BroadcastModel
  import opened BroadcastTransactions
  import opened BroadcastInvariant
  import opened DispatchProtocol
  import opened DispatchSafety

  predicate Stranded(db: Database, i: RecipientId) {
    i < |db.recipients| && db.recipients[i].status.InProgress? && db.recipients[i].claimToken.None?
  }

  function LatestRank(db: Database, i: RecipientId): int
    requires i < |db.recipients|
  {
    |db.recipients[i].messages| - 1
  }

  predicate PreparesNext(worker: Worker, i: RecipientId) {
    worker.Draining? && worker.queue != [] && worker.queue[0] == i
  }

  predicate AnswersLatest(db: Database, worker: Worker, i: RecipientId)
    requires i < |db.recipients|
  {
    worker.Answering? && worker.ref.recipient == i && worker.ref.rank == LatestRank(db, i)
  }

  /** The steps that free it: preparing it, starting it in vain, and writing the answer to its message. */
  predicate Frees(s: System, a: Action, i: RecipientId)
    requires i < |s.db.recipients|
  {
    match a
    case DoPrepare(w, _, _) => PreparesNext(At(s, w), i)
    case DoStart(w, now) =>
      At(s, w).Admitted? && At(s, w).ref.recipient == i && ValidRef(s.db, At(s, w).ref)
      && !StartAllowed(s.db, At(s, w).ref, now)
    case DoReconcile(w, _) => AnswersLatest(s.db, At(s, w), i)
    case _ => false
  }

  // ---- What a stranded recipient is ----

  lemma StrandedShape(db: Database, i: RecipientId)
    requires DatabaseInv(db) && Stranded(db, i)
    ensures var r := db.recipients[i];
            && Sound(r) && r.messages != [] && Latest(r).dispatch.InProgress?
            && Latest(r).provider.None? && Latest(r).externalId.None? && r.claimedAt.None?
            && (forall k | 0 <= k < |r.messages| - 1 :: Settled(r.messages[k].dispatch))
    ensures !db.broadcast.status.Draft? && !db.broadcast.status.Confirmed?
  {
    assert RecipientInv(db.broadcast, i, db.recipients[i]);
  }

  lemma SameRow(db: Database, after: Database, i: RecipientId)
    requires Stranded(db, i) && i < |after.recipients| && after.recipients[i] == db.recipients[i]
    ensures Stranded(after, i)
  {
  }

  // ---- One step ----

  lemma OtherRow(db: Database, id: RecipientId, r: Recipient, i: RecipientId)
    requires Stranded(db, i) && id < |db.recipients| && id != i
    ensures Stranded(WithRecipient(db, id, r), i)
  {
  }

  lemma {:induction false} RetryAllLeaves(db: Database, requests: seq<RetryRequest>, actor: UserId, now: Time,
                                          i: RecipientId)
    requires Stranded(db, i)
    ensures Stranded(RetryAll(db, requests, actor, now).db, i)
  {
    if requests != [] {
      RetryAllLeaves(db, requests[..|requests| - 1], actor, now, i);
      var before := RetryAll(db, requests[..|requests| - 1], actor, now).db;
      var request := requests[|requests| - 1];
      if Retryable(before, request) {
        OtherRow(before, request.recipient, RetryOne(before, request, actor, now).recipients[request.recipient], i);
      }
    }
  }

  /** Outside the draft, operators other than a retry change nothing. */
  lemma OperatorsWait(s: System, a: Action)
    requires !s.db.broadcast.status.Draft? && !s.db.broadcast.status.Confirmed? && ByOperator(a) && !a.DoRetry?
    ensures Step(s, a).db == s.db
  {
  }

  lemma RetryLeaves(db: Database, command: Uuid, requests: seq<RetryRequest>, actor: UserId, templateAvailable: bool,
                    now: Time, i: RecipientId)
    requires Stranded(db, i)
    ensures var after := RetryFailed(db, command, requests, actor, templateAvailable, now);
            after.Some? ==> Stranded(after.value, i)
  {
    RetryAllLeaves(db, requests, actor, now, i);
  }

  lemma OperatorLeaves(s: System, a: Action, i: RecipientId)
    requires SystemInv(s) && Stranded(s.db, i) && ByOperator(a)
    ensures Stranded(Step(s, a).db, i)
  {
    if a.DoRetry? {
      RetryLeaves(s.db, a.command, a.requests, a.actor, a.templateAvailable, a.now, i);
    } else {
      StrandedShape(s.db, i);
      OperatorsWait(s, a);
    }
  }

  lemma RecoverLeaves(db: Database, now: Time, locked: set<RecipientId>, i: RecipientId)
    requires DatabaseInv(db) && Stranded(db, i)
    ensures Stranded(RecoverStaleClaims(db, now, locked), i)
  {
    StrandedShape(db, i);
  }

  lemma ClaimLeaves(s: System, w: WorkerId, now: Time, locked: set<RecipientId>, i: RecipientId)
    requires Stranded(s.db, i)
    ensures Stranded(StepClaim(s, w, now, locked).db, i)
  {
    if At(s, w).Reading? {
      assert i !in Claimable(s.db, At(s, w).candidates, locked);
    }
  }

  /** Preparing it always blocks it, because its message is no longer pending. */
  lemma PrepareFrees(db: Database, id: RecipientId, templateAvailable: bool, now: Time, i: RecipientId)
    requires DatabaseInv(db) && Stranded(db, i)
    ensures match PrepareDispatch(db, id, templateAvailable, now)
            case Raises => id != i
            case Skip(after) => Stranded(after, i) <==> id != i
            case Dispatch(after, _) => id != i && after == db
  {
    StrandedShape(db, i);
  }

  lemma PrepareStepIff(s: System, w: WorkerId, templateAvailable: bool, now: Time, i: RecipientId)
    requires SystemInv(s) && Stranded(s.db, i)
    ensures Stranded(StepPrepare(s, w, templateAvailable, now).db, i) <==> !PreparesNext(At(s, w), i)
  {
    if At(s, w).Draining? && At(s, w).queue != [] {
      PrepareFrees(s.db, At(s, w).queue[0], templateAvailable, now, i);
    }
  }

  lemma StartStepIff(s: System, w: WorkerId, now: Time, i: RecipientId)
    requires SystemInv(s) && Stranded(s.db, i)
    ensures Stranded(StepStart(s, w, now).db, i) <==> !Frees(s, DoStart(w, now), i)
  {
    StrandedShape(s.db, i);
  }

  lemma AnswerIff(db: Database, ref: MessageRef, answer: Answer, now: Time, i: RecipientId)
    requires DatabaseInv(db) && Stranded(db, i) && ValidRef(db, ref)
    ensures Stranded(ReconcileAnswer(db, ref, answer, now), i)
            <==> !(ref.recipient == i && ref.rank == LatestRank(db, i))
  {
    StrandedShape(db, i);
    if ref.recipient == i {
      ReconcileSound(db.recipients[i], ref.rank, answer, now);
    } else {
      OtherRow(db, ref.recipient, Reconcile(db.recipients[ref.recipient], ref.rank, answer, now), i);
    }
  }

  lemma ReconcileStepIff(s: System, w: WorkerId, now: Time, i: RecipientId)
    requires SystemInv(s) && Stranded(s.db, i)
    ensures Stranded(StepReconcile(s, w, now).db, i) <==> !AnswersLatest(s.db, At(s, w), i)
  {
    StrandedShape(s.db, i);
    if At(s, w).Answering? && ValidRef(s.db, At(s, w).ref) {
      AnswerIff(s.db, At(s, w).ref, At(s, w).answer, now, i);
    }
  }

  lemma FinishLeaves(s: System, w: WorkerId, now: Time, i: RecipientId)
    requires Stranded(s.db, i)
    ensures Stranded(StepFinish(s, w, now).db, i)
  {
  }

  lemma NotifiedStays(r: Recipient, rank: nat, provider: ProviderState, evidence: Evidence)
    requires r.status.InProgress? && r.claimToken.None? && rank < |r.messages|
    requires Latest(r).dispatch.InProgress? && Latest(r).provider.None? && Latest(r).externalId.None?
    ensures var s := Notify(r, rank, provider, evidence); s.status.InProgress? && s.claimToken.None?
  {
  }

  lemma StatusLeaves(db: Database, ref: MessageRef, provider: ProviderState, evidence: Evidence, i: RecipientId)
    requires DatabaseInv(db) && Stranded(db, i)
    ensures Stranded(DeliveryStatus(db, ref, provider, evidence), i)
  {
    StrandedShape(db, i);
    if ValidRef(db, ref) {
      if ref.recipient == i {
        NotifiedStays(db.recipients[i], ref.rank, provider, evidence);
      } else {
        OtherRow(db, ref.recipient, Notify(db.recipients[ref.recipient], ref.rank, provider, evidence), i);
      }
    }
  }

  lemma EnvironmentLeaves(s: System, a: Action, i: RecipientId)
    requires SystemInv(s) && Stranded(s.db, i) && ByEnvironment(a)
    ensures Stranded(Step(s, a).db, i)
  {
    if a.DeliveryStatusReceived? {
      StatusLeaves(s.db, a.ref, a.provider, a.evidence, i);
    } else {
      SameRow(s.db, Step(s, a).db, i);
    }
  }

  lemma SendingStepIff(s: System, a: Action, i: RecipientId)
    requires SystemInv(s) && Stranded(s.db, i) && (a.DoPrepare? || a.DoStart? || a.DoReconcile?)
    ensures Stranded(Step(s, a).db, i) <==> !Frees(s, a, i)
  {
    match a
    case DoPrepare(w, templateAvailable, now) => PrepareStepIff(s, w, templateAvailable, now, i);
    case DoStart(w, now) => StartStepIff(s, w, now, i);
    case DoReconcile(w, now) => ReconcileStepIff(s, w, now, i);
  }

  lemma OtherWorkLeaves(s: System, a: Action, i: RecipientId)
    requires SystemInv(s) && Stranded(s.db, i) && !ByOperator(a) && !ByEnvironment(a)
    requires !a.DoPrepare? && !a.DoStart? && !a.DoReconcile?
    ensures Stranded(Step(s, a).db, i)
  {
    match a
    case DoRecover(now, locked) => RecoverLeaves(s.db, now, locked, i);
    case DoClaim(w, now, locked) => ClaimLeaves(s, w, now, locked, i);
    case DoFinish(w, now) => FinishLeaves(s, w, now, i);
    case _ => NothingWritten(s, a);
  }

  lemma StepIff(s: System, a: Action, i: RecipientId)
    requires SystemInv(s) && Stranded(s.db, i)
    ensures Stranded(Step(s, a).db, i) <==> !Frees(s, a, i)
  {
    if ByOperator(a) {
      OperatorLeaves(s, a, i);
    } else if ByEnvironment(a) {
      EnvironmentLeaves(s, a, i);
    } else if a.DoPrepare? || a.DoStart? || a.DoReconcile? {
      SendingStepIff(s, a, i);
    } else {
      OtherWorkLeaves(s, a, i);
    }
  }

  /** In every reachable state: exactly these steps end it, and recovery never selects it. */
  lemma FreedIff(s: System, actions: seq<Action>, a: Action, i: RecipientId)
    requires Initial(s) && Stranded(Run(s, actions).db, i)
    ensures Stranded(Step(Run(s, actions), a).db, i) <==> !Frees(Run(s, actions), a, i)
    ensures forall threshold :: !Stale(Run(s, actions).db.recipients[i], threshold)
  {
    InitialInv(s);
    RunKeeps(s, actions);
    StrandedShape(Run(s, actions).db, i);
    StepIff(Run(s, actions), a, i);
  }

  // ---- The broadcast does not complete ----

  predicate StaysProcessing(db: Database, after: Database) {
    && (db.broadcast.status.Processing? ==> after.broadcast.status.Processing?)
    && after.broadcast.lastCompletedAt == db.broadcast.lastCompletedAt
  }

  lemma {:induction false} RetryAllStaysProcessing(db: Database, requests: seq<RetryRequest>, actor: UserId, now: Time)
    ensures RetryAll(db, requests, actor, now).db.broadcast == db.broadcast
  {
    if requests != [] {
      RetryAllStaysProcessing(db, requests[..|requests| - 1], actor, now);
    }
  }

  lemma RetryStaysProcessing(db: Database, command: Uuid, requests: seq<RetryRequest>, actor: UserId,
                             templateAvailable: bool, now: Time)
    ensures var after := RetryFailed(db, command, requests, actor, templateAvailable, now);
            after.Some? ==> StaysProcessing(db, after.value)
  {
    RetryAllStaysProcessing(db, requests, actor, now);
  }

  lemma OperatorStaysProcessing(s: System, a: Action, i: RecipientId)
    requires SystemInv(s) && Stranded(s.db, i) && ByOperator(a)
    ensures StaysProcessing(s.db, Step(s, a).db)
  {
    if a.DoRetry? {
      RetryStaysProcessing(s.db, a.command, a.requests, a.actor, a.templateAvailable, a.now);
    } else {
      StrandedShape(s.db, i);
      OperatorsWait(s, a);
    }
  }

  lemma FinishStaysProcessing(s: System, w: WorkerId, now: Time, i: RecipientId)
    requires Stranded(s.db, i)
    ensures StepFinish(s, w, now).db.broadcast == s.db.broadcast
  {
    NoneRemain(s.db.recipients);
  }

  lemma ClaimSameBroadcast(s: System, w: WorkerId, now: Time, locked: set<RecipientId>)
    ensures StepClaim(s, w, now, locked).db.broadcast == s.db.broadcast
  {
  }

  lemma DispatchSameBroadcast(s: System, w: WorkerId, templateAvailable: bool, now: Time)
    ensures StepPrepare(s, w, templateAvailable, now).db.broadcast == s.db.broadcast
    ensures StepStart(s, w, now).db.broadcast == s.db.broadcast
  {
  }

  lemma WorkerStaysProcessing(s: System, a: Action, i: RecipientId)
    requires Stranded(s.db, i) && !ByOperator(a) && !ByEnvironment(a)
    ensures StaysProcessing(s.db, Step(s, a).db)
  {
    match a
    case DoClaim(w, now, locked) => ClaimSameBroadcast(s, w, now, locked);
    case DoPrepare(w, templateAvailable, now) => DispatchSameBroadcast(s, w, templateAvailable, now);
    case DoStart(w, now) => DispatchSameBroadcast(s, w, true, now);
    case DoFinish(w, now) => FinishStaysProcessing(s, w, now, i);
    case _ => if WritesNothing(a) { NothingWritten(s, a); }
  }

  lemma EnvironmentStaysProcessing(s: System, a: Action)
    requires ByEnvironment(a)
    ensures StaysProcessing(s.db, Step(s, a).db)
  {
  }

  lemma StepStaysProcessing(s: System, a: Action, i: RecipientId)
    requires SystemInv(s) && Stranded(s.db, i)
    ensures StaysProcessing(s.db, Step(s, a).db)
  {
    if ByOperator(a) {
      OperatorStaysProcessing(s, a, i);
    } else if ByEnvironment(a) {
      EnvironmentStaysProcessing(s, a);
    } else {
      WorkerStaysProcessing(s, a, i);
    }
  }

  // ---- Continuations ----

  predicate NoneFrees(s: System, actions: seq<Action>, i: RecipientId) {
    forall n | 0 <= n < |actions| && i < |Run(s, actions[..n]).db.recipients| ::
      !Frees(Run(s, actions[..n]), actions[n], i)
  }

  lemma NoneFreesBefore(s: System, actions: seq<Action>, i: RecipientId)
    requires NoneFrees(s, actions, i) && actions != []
    ensures var earlier := actions[..|actions| - 1];
            && NoneFrees(s, earlier, i)
            && (i < |Run(s, earlier).db.recipients| ==> !Frees(Run(s, earlier), actions[|actions| - 1], i))
  {
    var earlier := actions[..|actions| - 1];
    assert forall n | 0 <= n < |earlier| :: earlier[..n] == actions[..n];
  }

  lemma {:induction false} RunStrands(s: System, actions: seq<Action>, i: RecipientId)
    requires SystemInv(s) && Stranded(s.db, i) && NoneFrees(s, actions, i)
    ensures SystemInv(Run(s, actions)) && Stranded(Run(s, actions).db, i)
    ensures StaysProcessing(s.db, Run(s, actions).db)
  {
    if actions != [] {
      NoneFreesBefore(s, actions, i);
      RunStrands(s, actions[..|actions| - 1], i);
      RunLast(s, actions, i);
    }
  }

  lemma RunLast(s: System, actions: seq<Action>, i: RecipientId)
    requires actions != [] && SystemInv(Run(s, actions[..|actions| - 1]))
    requires Stranded(Run(s, actions[..|actions| - 1]).db, i)
             && StaysProcessing(s.db, Run(s, actions[..|actions| - 1]).db)
    requires !Frees(Run(s, actions[..|actions| - 1]), actions[|actions| - 1], i)
    ensures var t := Run(s, actions);
            SystemInv(t) && Stranded(t.db, i) && StaysProcessing(s.db, t.db)
  {
    var before := Run(s, actions[..|actions| - 1]);
    StepKeeps(before, actions[|actions| - 1]);
    StepIff(before, actions[|actions| - 1], i);
    StepStaysProcessing(before, actions[|actions| - 1], i);
  }

  /**
   In every continuation none of whose steps frees it, the recipient stays in progress and the
   broadcast does not complete.
   */
  lemma StrandedUntilFreed(s: System, first: seq<Action>, rest: seq<Action>, i: RecipientId)
    requires Initial(s) && Stranded(Run(s, first).db, i) && NoneFrees(Run(s, first), rest, i)
    ensures var middle, t := Run(s, first), Run(Run(s, first), rest);
            Stranded(t.db, i) && StaysProcessing(middle.db, t.db)
  {
    InitialInv(s);
    RunKeeps(s, first);
    RunStrands(Run(s, first), rest, i);
  }

  // ---- When nobody is left who could ----

  predicate Holds(worker: Worker, i: RecipientId) {
    match worker
    case Idle => false
    case Reading(_, _) => false
    case Draining(queue) => i in queue
    case Holding(plan, queue) => plan.recipient == i || i in queue
    case Admitted(ref, queue) => ref.recipient == i || i in queue
    case Dispatching(start, queue) => start.ref.recipient == i || i in queue
    case Answering(ref, _, queue) => ref.recipient == i || i in queue
  }

  /** No worker has it in hand or in its queue. */
  predicate Forgotten(s: System, i: RecipientId) {
    forall w | w in s.workers :: !Holds(s.workers[w], i)
  }

  lemma ForgottenIsNotFreed(s: System, a: Action, i: RecipientId)
    requires i < |s.db.recipients| && Frees(s, a, i)
    ensures !Forgotten(s, i)
  {
    assert Holds(s.workers[a.worker], i);
  }

  lemma NotFreed(s: System, a: Action, i: RecipientId)
    requires i < |s.db.recipients| && Forgotten(s, i)
    ensures !Frees(s, a, i)
  {
    if Frees(s, a, i) {
      ForgottenIsNotFreed(s, a, i);
      assert false;
    }
  }

  lemma MoveForgets(s: System, db: Database, w: WorkerId, worker: Worker, i: RecipientId)
    requires Forgotten(s, i) && !Holds(worker, i)
    ensures Forgotten(Move(s.(db := db), w, worker), i)
  {
  }

  lemma ClaimForgets(s: System, w: WorkerId, now: Time, locked: set<RecipientId>, i: RecipientId)
    requires Stranded(s.db, i) && Forgotten(s, i)
    ensures Forgotten(StepClaim(s, w, now, locked), i)
  {
    if At(s, w).Reading? {
      assert i !in Claimable(s.db, At(s, w).candidates, locked);
    }
  }

  lemma PrepareForgets(s: System, w: WorkerId, templateAvailable: bool, now: Time, i: RecipientId)
    requires Forgotten(s, i)
    ensures Forgotten(StepPrepare(s, w, templateAvailable, now), i)
  {
    if At(s, w).Draining? && At(s, w).queue != [] {
      assert !Holds(s.workers[w], i);
      assert i !in At(s, w).queue[1..] && At(s, w).queue[0] in At(s, w).queue;
    }
  }

  lemma AdmitForgets(s: System, w: WorkerId, ref: MessageRef, i: RecipientId)
    requires SystemInv(s) && Forgotten(s, i)
    ensures Forgotten(StepAdmit(s, w, ref), i)
  {
    var worker := At(s, w);
    if worker.Holding? && ValidRef(s.db, ref) && Admits(s.db, worker.plan, ref) {
      assert !Holds(s.workers[w], i) && WorkerInv(s.db, s.workers[w]);
      AdmittedIsSendable(s.db, worker.plan, ref);
    }
  }

  lemma StartForgets(s: System, w: WorkerId, now: Time, i: RecipientId)
    requires Forgotten(s, i)
    ensures Forgotten(StepStart(s, w, now), i)
  {
    if w in s.workers {
      assert !Holds(s.workers[w], i);
    }
  }

  lemma CallForgets(s: System, w: WorkerId, answer: Answer, i: RecipientId)
    requires Forgotten(s, i)
    ensures Forgotten(StepCall(s, w, answer), i)
  {
    if w in s.workers {
      assert !Holds(s.workers[w], i);
    }
  }

  lemma ReconcileForgets(s: System, w: WorkerId, now: Time, i: RecipientId)
    requires Forgotten(s, i)
    ensures Forgotten(StepReconcile(s, w, now), i)
  {
    if w in s.workers {
      assert !Holds(s.workers[w], i);
    }
  }

  lemma FinishForgets(s: System, w: WorkerId, now: Time, i: RecipientId)
    requires Forgotten(s, i)
    ensures Forgotten(StepFinish(s, w, now), i)
  {
    if w in s.workers {
      assert !Holds(s.workers[w], i);
    }
  }

  lemma SameWorkersForget(s: System, a: Action, i: RecipientId)
    requires Forgotten(s, i) && (ByOperator(a) || ByEnvironment(a))
    ensures Forgotten(Step(s, a), i)
  {
  }

  lemma SendingForgets(s: System, a: Action, i: RecipientId)
    requires Forgotten(s, i) && (a.DoStart? || a.DoCall? || a.DoReconcile? || a.DoFinish?)
    ensures Forgotten(Step(s, a), i)
  {
    match a
    case DoStart(w, now) => StartForgets(s, w, now, i);
    case DoCall(w, answer) => CallForgets(s, w, answer, i);
    case DoReconcile(w, now) => ReconcileForgets(s, w, now, i);
    case DoFinish(w, now) => FinishForgets(s, w, now, i);
  }

  lemma ReadForgets(s: System, w: WorkerId, command: Uuid, clientIds: seq<Uuid>, i: RecipientId)
    requires Forgotten(s, i)
    ensures Forgotten(StepRead(s, w, command, clientIds), i)
  {
  }

  lemma PreparingForgets(s: System, a: Action, i: RecipientId)
    requires SystemInv(s) && Stranded(s.db, i) && Forgotten(s, i)
    requires a.DoRead? || a.DoClaim? || a.DoPrepare? || a.DoAdmit? || a.DoRecover? || a.Crash?
    ensures Forgotten(Step(s, a), i)
  {
    match a
    case DoRead(w, command, clientIds) => ReadForgets(s, w, command, clientIds, i);
    case DoClaim(w, now, locked) => ClaimForgets(s, w, now, locked, i);
    case DoPrepare(w, templateAvailable, now) => PrepareForgets(s, w, templateAvailable, now, i);
    case DoAdmit(w, ref) => AdmitForgets(s, w, ref, i);
    case Crash(w) => MoveForgets(s, s.db, w, Idle, i);
    case DoRecover(now, locked) =>
  }

  lemma StepForgets(s: System, a: Action, i: RecipientId)
    requires SystemInv(s) && Stranded(s.db, i) && Forgotten(s, i)
    ensures Forgotten(Step(s, a), i)
  {
    if ByOperator(a) || ByEnvironment(a) {
      SameWorkersForget(s, a, i);
    } else if a.DoStart? || a.DoCall? || a.DoReconcile? || a.DoFinish? {
      SendingForgets(s, a, i);
    } else {
      PreparingForgets(s, a, i);
    }
  }

  lemma {:induction false} RunForgets(s: System, actions: seq<Action>, i: RecipientId)
    requires SystemInv(s) && Stranded(s.db, i) && Forgotten(s, i)
    ensures var t := Run(s, actions);
            SystemInv(t) && Stranded(t.db, i) && Forgotten(t, i) && StaysProcessing(s.db, t.db)
  {
    if actions != [] {
      RunForgets(s, actions[..|actions| - 1], i);
      var before := Run(s, actions[..|actions| - 1]);
      NotFreed(before, actions[|actions| - 1], i);
      RunLast(s, actions, i);
      StepForgets(before, actions[|actions| - 1], i);
    }
  }

  /** Once no worker has it, the recipient stays in progress and the broadcast unfinished in every continuation. */
  lemma StrandedForEver(s: System, first: seq<Action>, rest: seq<Action>, i: RecipientId)
    requires Initial(s) && Stranded(Run(s, first).db, i) && Forgotten(Run(s, first), i)
    ensures var middle, t := Run(s, first), Run(Run(s, first), rest);
            Stranded(t.db, i) && StaysProcessing(middle.db, t.db)
  {
    InitialInv(s);
    RunKeeps(s, first);
    RunForgets(Run(s, first), rest, i);
  }
}
