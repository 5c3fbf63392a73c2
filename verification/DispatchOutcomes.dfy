/**
 What the provider said. The answers to the calls and the delivery statuses of a run explain every
 outcome that is stored, and a message is followed by another only when its failure was heard.
 */
module DispatchOutcomes {
  import opened Wrappers
  import opened BroadcastModel
  import opened BroadcastTransactions
  import opened BroadcastInvariant
  import opened DispatchProtocol
  import opened DispatchSafety
  import opened DispatchAttempts
  import opened DispatchHistory

  datatype Heard = Told(ref: MessageRef, answer: Answer) | Reported(ref: MessageRef, provider: ProviderState)

  /** What one step hears: the answer to a call, or a status of a message that the provider has accepted. */
  function HeardAt(s: System, a: Action): seq<Heard> {
    match a
    case DoCall(w, answer) => if At(s, w).Dispatching? then [Told(At(s, w).start.ref, answer)] else []
    case DeliveryStatusReceived(ref, provider, _) =>
      if ValidRef(s.db, ref) && MessageAt(s.db, ref).externalId.Some? then [Reported(ref, provider)] else []
    case _ => []
  }

  /** Everything heard in a run, in order. */
  function HeardIn(s: System, actions: seq<Action>): seq<Heard> {
    if actions == [] then []
    else
      var earlier := actions[..|actions| - 1];
      HeardIn(s, earlier) + HeardAt(Run(s, earlier), actions[|actions| - 1])
  }

  predicate AcceptanceHeard(heard: seq<Heard>, ref: MessageRef, externalId: Option<string>) {
    exists n | 0 <= n < |heard| ::
      && heard[n].Told? && heard[n].ref == ref
      && heard[n].answer.AcceptedAs? && Some(heard[n].answer.externalId) == externalId
  }

  /** A delivery state comes with the acceptance or in a status of its own. */
  predicate StateHeard(heard: seq<Heard>, ref: MessageRef, state: ProviderState) {
    Reported(ref, state) in heard
    || exists n | 0 <= n < |heard| ::
         && heard[n].Told? && heard[n].ref == ref
         && heard[n].answer.AcceptedAs? && heard[n].answer.provider == Some(state)
  }

  /** The provider refused the message or reported it failed. */
  predicate FailureHeard(heard: seq<Heard>, ref: MessageRef) {
    Told(ref, Refused) in heard || StateHeard(heard, ref, ProviderState.Failed)
  }

  predicate OutcomeExplained(m: Message, ref: MessageRef, heard: seq<Heard>) {
    && (m.dispatch.Accepted? ==> AcceptanceHeard(heard, ref, m.externalId))
    && (m.dispatch.DefinitiveFailed? ==> Told(ref, Refused) in heard)
    && (m.provider.Some? ==> StateHeard(heard, ref, m.provider.value))
  }

  ghost predicate OutcomesExplained(db: Database, heard: seq<Heard>) {
    forall ref | ValidRef(db, ref) :: OutcomeExplained(MessageAt(db, ref), ref, heard)
  }

  predicate HasSuccessor(db: Database, ref: MessageRef) {
    ValidRef(db, ref) && ref.rank < |db.recipients[ref.recipient].messages| - 1
  }

  ghost predicate SuccessorsExplained(db: Database, heard: seq<Heard>) {
    forall ref | HasSuccessor(db, ref) :: FailureHeard(heard, ref)
  }

  /** Each answer belongs to a call, and no message has two. */
  predicate AnswersCalled(s: System, heard: seq<Heard>) {
    && (forall n | 0 <= n < |heard| && heard[n].Told? :: WasCalled(s, heard[n].ref))
    && (forall m, n | 0 <= m < n < |heard| && heard[m].Told? && heard[n].Told? :: heard[m].ref != heard[n].ref)
  }

  predicate WorkersTruthful(s: System, heard: seq<Heard>) {
    forall w | w in s.workers && s.workers[w].Answering? :: Told(s.workers[w].ref, s.workers[w].answer) in heard
  }

  ghost predicate Explained(s: System, heard: seq<Heard>) {
    && OutcomesExplained(s.db, heard) && SuccessorsExplained(s.db, heard)
    && AnswersCalled(s, heard) && WorkersTruthful(s, heard)
  }

  // ---- Hearing more ----

  lemma StateStaysHeard(heard: seq<Heard>, more: seq<Heard>, ref: MessageRef, state: ProviderState)
    requires StateHeard(heard, ref, state)
    ensures StateHeard(heard + more, ref, state)
  {
    if Reported(ref, state) !in heard {
      var n :| 0 <= n < |heard| && heard[n].Told? && heard[n].ref == ref
               && heard[n].answer.AcceptedAs? && heard[n].answer.provider == Some(state);
      assert (heard + more)[n] == heard[n];
    }
  }

  lemma OutcomeStaysExplained(m: Message, ref: MessageRef, heard: seq<Heard>, more: seq<Heard>)
    requires OutcomeExplained(m, ref, heard)
    ensures OutcomeExplained(m, ref, heard + more)
  {
    if m.dispatch.Accepted? {
      var n :| 0 <= n < |heard| && heard[n].Told? && heard[n].ref == ref
               && heard[n].answer.AcceptedAs? && Some(heard[n].answer.externalId) == m.externalId;
      assert (heard + more)[n] == heard[n];
    }
    if m.provider.Some? {
      StateStaysHeard(heard, more, ref, m.provider.value);
    }
  }

  lemma MoreHeard(db: Database, heard: seq<Heard>, more: seq<Heard>)
    requires OutcomesExplained(db, heard) && SuccessorsExplained(db, heard)
    ensures OutcomesExplained(db, heard + more) && SuccessorsExplained(db, heard + more)
  {
    forall ref | ValidRef(db, ref) ensures OutcomeExplained(MessageAt(db, ref), ref, heard + more) {
      OutcomeStaysExplained(MessageAt(db, ref), ref, heard, more);
    }
    forall ref | HasSuccessor(db, ref) ensures FailureHeard(heard + more, ref) {
      if Told(ref, Refused) !in heard {
        StateStaysHeard(heard, more, ref, ProviderState.Failed);
      }
    }
  }

  // ---- Steps that learn nothing ----

  predicate MessageUnlearnt(m: Message, n: Message) {
    && n.provider == m.provider && n.externalId == m.externalId
    && (n.dispatch == m.dispatch || n.dispatch.InProgress? || n.dispatch.Unknown?)
  }

  predicate Unlearnt(r: Recipient, s: Recipient) {
    forall k | 0 <= k < |s.messages| ::
      if k < |r.messages| then MessageUnlearnt(r.messages[k], s.messages[k])
      else s.messages[k].dispatch.Pending? && s.messages[k].provider.None?
  }

  predicate NothingLearnt(db: Database, after: Database) {
    forall i | 0 <= i < |after.recipients| ::
      if i < |db.recipients| then Unlearnt(db.recipients[i], after.recipients[i])
      else after.recipients[i].messages == []
  }

  lemma UnlearntExplained(db: Database, after: Database, heard: seq<Heard>)
    requires NothingLearnt(db, after) && OutcomesExplained(db, heard)
    ensures OutcomesExplained(after, heard)
  {
    forall ref | ValidRef(after, ref) ensures OutcomeExplained(MessageAt(after, ref), ref, heard) {
      assert Unlearnt(db.recipients[ref.recipient], after.recipients[ref.recipient]);
      if ValidRef(db, ref) {
        assert OutcomeExplained(MessageAt(db, ref), ref, heard);
      }
    }
  }

  lemma SameMessagesUnlearnt(db: Database, after: Database)
    requires |after.recipients| == |db.recipients|
    requires forall i | 0 <= i < |db.recipients| :: after.recipients[i].messages == db.recipients[i].messages
    ensures NothingLearnt(db, after)
  {
  }

  lemma OneUnlearnt(db: Database, id: RecipientId, r: Recipient)
    requires id < |db.recipients| && Unlearnt(db.recipients[id], r)
    ensures NothingLearnt(db, WithRecipient(db, id, r))
  {
  }

  lemma ReplaceLearnsNothing(db: Database, command: Uuid, ids: seq<CustomerId>, version: nat)
    ensures var after := ReplaceRecipients(db, command, ids, version);
            after.Some? ==> NothingLearnt(db, after.value)
  {
    SelectedRows(db, ids);
  }

  lemma ConfirmLearnsNothing(db: Database, command: Uuid, version: nat, token: Uuid, checks: Checks, actor: UserId,
                             now: Time)
    ensures var after := Confirm(db, command, version, token, checks, actor, now);
            after.Some? ==> NothingLearnt(db, after.value)
  {
  }

  /** A retry appends a message that is still pending. */
  lemma RetryLearnsNothing(db: Database, command: Uuid, requests: seq<RetryRequest>, actor: UserId,
                           templateAvailable: bool, now: Time)
    requires DatabaseInv(db)
    ensures var after := RetryFailed(db, command, requests, actor, templateAvailable, now);
            after.Some? ==> NothingLearnt(db, after.value)
  {
    RetryAllCounts(db, requests, actor, now);
    RetryFailedKeeps(db, command, requests, actor, templateAvailable, now);
    var after := RetryFailed(db, command, requests, actor, templateAvailable, now);
    if after.Some? {
      forall i | 0 <= i < |after.value.recipients| ensures Unlearnt(db.recipients[i], after.value.recipients[i]) {
        assert RecipientInv(after.value.broadcast, i, after.value.recipients[i]);
        RetriedUnlearnt(db.recipients[i], after.value.recipients[i]);
      }
    }
  }

  lemma RetriedUnlearnt(r: Recipient, s: Recipient)
    requires Chained(s.messages) && (RetriedAtMostOnce(r, s) || s == r)
    ensures Unlearnt(r, s)
  {
  }

  lemma RecoverUnlearnt(r: Recipient)
    ensures Unlearnt(r, Recover(r))
  {
  }

  lemma RecoverLearnsNothing(db: Database, now: Time, locked: set<RecipientId>)
    ensures NothingLearnt(db, RecoverStaleClaims(db, now, locked))
  {
    forall i | 0 <= i < |db.recipients|
      ensures Unlearnt(db.recipients[i], RecoverStaleClaims(db, now, locked).recipients[i])
    {
      RecoverUnlearnt(db.recipients[i]);
    }
  }

  lemma ClaimUnlearnt(r: Recipient, initial: Message, command: Uuid, now: Time)
    requires initial.dispatch.Pending? && initial.provider.None?
    ensures Unlearnt(r, Claim(r, initial, command, now))
  {
  }

  lemma ClaimLearnsNothing(db: Database, command: Uuid, candidates: seq<Candidate>, now: Time, locked: set<RecipientId>)
    ensures var claim := ClaimRecipients(db, command, candidates, now, locked);
            claim.Some? ==> NothingLearnt(db, claim.value.db)
  {
    var claim := ClaimRecipients(db, command, candidates, now, locked);
    if claim.Some? && !CommandExists(db, command) {
      forall i | 0 <= i < |db.recipients| ensures Unlearnt(db.recipients[i], claim.value.db.recipients[i]) {
        if i in claim.value.ids {
          ClaimUnlearnt(db.recipients[i],
                        InitialMessage(db, i, ClientIdFor(candidates, i), Sender(db.broadcast).value, now), command,
                        now);
        }
      }
    } else {
      SameMessagesUnlearnt(db, db);
    }
  }

  lemma PrepareLearnsNothing(db: Database, id: RecipientId, templateAvailable: bool, now: Time)
    ensures match PrepareDispatch(db, id, templateAvailable, now)
            case Raises => true
            case Skip(after) => NothingLearnt(db, after)
            case Dispatch(after, _) => NothingLearnt(db, after)
  {
  }

  lemma StartLearnsNothing(db: Database, ref: MessageRef, now: Time)
    requires ValidRef(db, ref)
    ensures NothingLearnt(db, StartDispatch(db, ref, now).db)
  {
  }

  // ---- Steps that learn something ----

  lemma ReconcileExplained(db: Database, ref: MessageRef, answer: Answer, now: Time, heard: seq<Heard>)
    requires DatabaseInv(db) && ValidRef(db, ref) && OutcomesExplained(db, heard) && Told(ref, answer) in heard
    ensures OutcomesExplained(ReconcileAnswer(db, ref, answer, now), heard)
  {
    var after := ReconcileAnswer(db, ref, answer, now);
    assert RecipientInv(db.broadcast, ref.recipient, db.recipients[ref.recipient]);
    forall other | ValidRef(after, other) ensures OutcomeExplained(MessageAt(after, other), other, heard) {
      assert ValidRef(db, other) && OutcomeExplained(MessageAt(db, other), other, heard);
      if other == ref && MessageAt(db, ref).dispatch.InProgress? {
        AnswerExplained(MessageAt(db, ref), ref, answer, now, heard);
      }
    }
  }

  lemma AnswerExplained(m: Message, ref: MessageRef, answer: Answer, now: Time, heard: seq<Heard>)
    requires m.dispatch.InProgress? && m.provider.None? && Told(ref, answer) in heard
    ensures OutcomeExplained(Answered(m, answer, now), ref, heard)
  {
  }

  lemma StatusExplained(s: System, a: Action, heard: seq<Heard>)
    requires a.DeliveryStatusReceived? && OutcomesExplained(s.db, heard) && SuccessorsExplained(s.db, heard)
    ensures OutcomesExplained(DeliveryStatus(s.db, a.ref, a.provider, a.evidence), heard + HeardAt(s, a))
  {
    MoreHeard(s.db, heard, HeardAt(s, a));
    var all := heard + HeardAt(s, a);
    var after := DeliveryStatus(s.db, a.ref, a.provider, a.evidence);
    forall other | ValidRef(after, other) ensures OutcomeExplained(MessageAt(after, other), other, all) {
      assert ValidRef(s.db, other) && OutcomeExplained(MessageAt(s.db, other), other, all);
      if other == a.ref && MessageAt(s.db, other).externalId.Some? {
        assert all[|heard|] == Reported(a.ref, a.provider);
      }
    }
  }

  // ---- Successors ----

  lemma SameSuccessors(s: System, a: Action, heard: seq<Heard>)
    requires SystemInv(s) && !a.DoRetry? && SuccessorsExplained(s.db, heard)
    ensures SuccessorsExplained(Step(s, a).db, heard)
  {
    StepAddsNoResend(s, a);
    var after := Step(s, a).db;
    forall ref | HasSuccessor(after, ref) ensures FailureHeard(heard, ref) {
      NoNewSuccessor(s.db, after, ref);
    }
  }

  lemma NoNewSuccessor(db: Database, after: Database, ref: MessageRef)
    requires NoResendAdded(db, after) && HasSuccessor(after, ref)
    ensures HasSuccessor(db, ref)
  {
    assert Resends(after.recipients[ref.recipient]) > 0;
  }

  /** A retry appends to a failed message, and that its failure was heard is what explains it. */
  lemma RetriedSuccessors(db: Database, requests: seq<RetryRequest>, actor: UserId, now: Time, heard: seq<Heard>)
    requires DatabaseInv(db) && OutcomesExplained(db, heard) && SuccessorsExplained(db, heard)
    ensures SuccessorsExplained(RetryAll(db, requests, actor, now).db, heard)
  {
    RetryAllCounts(db, requests, actor, now);
    var after := RetryAll(db, requests, actor, now).db;
    forall ref | HasSuccessor(after, ref) ensures FailureHeard(heard, ref) {
      assert RetriedAtMostOnce(db.recipients[ref.recipient], after.recipients[ref.recipient]);
      RetriedSuccessor(db, after, ref, heard);
    }
  }

  lemma RetriedSuccessor(db: Database, after: Database, ref: MessageRef, heard: seq<Heard>)
    requires OutcomesExplained(db, heard) && SuccessorsExplained(db, heard) && HasSuccessor(after, ref)
    requires ref.recipient < |db.recipients|
    requires RetriedAtMostOnce(db.recipients[ref.recipient], after.recipients[ref.recipient])
    ensures FailureHeard(heard, ref)
  {
    if !HasSuccessor(db, ref) {
      RetriedAfter(db.recipients[ref.recipient], after.recipients[ref.recipient], ref.rank);
      assert OutcomeExplained(MessageAt(db, ref), ref, heard);
    }
  }

  lemma RetriedAfter(r: Recipient, s: Recipient, rank: nat)
    requires RetriedAtMostOnce(r, s) && |r.messages| - 1 <= rank < |s.messages| - 1
    ensures rank == |r.messages| - 1 && MessageFailed(Latest(r))
  {
  }

  // ---- Workers and calls ----

  /** No call is made and no worker gets an answer. */
  predicate SameAnswers(s: System, t: System) {
    && t.calls == s.calls
    && forall w | w in t.workers && t.workers[w].Answering? :: w in s.workers && s.workers[w] == t.workers[w]
  }

  lemma PreparingAnswersNothing(s: System, w: WorkerId, templateAvailable: bool, now: Time, locked: set<RecipientId>,
                                ref: MessageRef)
    ensures SameAnswers(s, StepClaim(s, w, now, locked)) && SameAnswers(s, StepPrepare(s, w, templateAvailable, now))
    ensures SameAnswers(s, StepAdmit(s, w, ref))
  {
  }

  lemma SendingAnswersNothing(s: System, w: WorkerId, now: Time)
    ensures SameAnswers(s, StepStart(s, w, now)) && SameAnswers(s, StepReconcile(s, w, now))
    ensures SameAnswers(s, StepFinish(s, w, now))
  {
  }

  lemma OthersAnswerNothing(s: System, a: Action)
    requires ByOperator(a) || ByEnvironment(a)
    ensures SameAnswers(s, Step(s, a))
  {
  }

  lemma OnlyCallsAnswer(s: System, a: Action)
    requires !a.DoCall?
    ensures SameAnswers(s, Step(s, a))
  {
    match a
    case DoClaim(w, now, locked) => PreparingAnswersNothing(s, w, true, now, locked, MessageRef(0, 0));
    case DoPrepare(w, templateAvailable, now) =>
      PreparingAnswersNothing(s, w, templateAvailable, now, {}, MessageRef(0, 0));
    case DoAdmit(w, ref) => PreparingAnswersNothing(s, w, true, 0, {}, ref);
    case DoStart(w, now) => SendingAnswersNothing(s, w, now);
    case DoReconcile(w, now) => SendingAnswersNothing(s, w, now);
    case DoFinish(w, now) => SendingAnswersNothing(s, w, now);
    case _ => if ByOperator(a) || ByEnvironment(a) { OthersAnswerNothing(s, a); }
  }

  lemma QuietCalls(s: System, t: System, heard: seq<Heard>)
    requires SameAnswers(s, t) && AnswersCalled(s, heard) && WorkersTruthful(s, heard)
    ensures AnswersCalled(t, heard) && WorkersTruthful(t, heard)
  {
    forall n | 0 <= n < |heard| && heard[n].Told? ensures WasCalled(t, heard[n].ref) {
      assert WasCalled(s, heard[n].ref);
    }
  }

  lemma StatusCalls(s: System, t: System, a: Action, heard: seq<Heard>)
    requires a.DeliveryStatusReceived? && AnswersCalled(t, heard) && WorkersTruthful(t, heard)
    ensures AnswersCalled(t, heard + HeardAt(s, a)) && WorkersTruthful(t, heard + HeardAt(s, a))
  {
    var all := heard + HeardAt(s, a);
    forall n | 0 <= n < |all| && all[n].Told? ensures n < |heard| && all[n] == heard[n] {
    }
  }

  lemma CallExplained(s: System, w: WorkerId, answer: Answer, heard: seq<Heard>)
    requires Exclusive(s) && At(s, w).Dispatching? && AnswersCalled(s, heard) && WorkersTruthful(s, heard)
    ensures var all := heard + HeardAt(s, DoCall(w, answer));
            AnswersCalled(StepCall(s, w, answer), all) && WorkersTruthful(StepCall(s, w, answer), all)
  {
    var t := StepCall(s, w, answer);
    var ref := At(s, w).start.ref;
    var all := heard + HeardAt(s, DoCall(w, answer));
    assert all == heard + [Told(ref, answer)] && all[|heard|] == Told(ref, answer);
    assert t.calls[|s.calls|].ref == ref;
    HistoriesGrow(s, t);
    forall n | 0 <= n < |all| && all[n].Told?
      ensures WasCalled(t, all[n].ref) && (n < |heard| ==> all[n].ref != ref)
    {
      if n < |heard| {
        assert WasCalled(s, heard[n].ref);
        NeverCalledYet(s, w, heard[n].ref);
      }
    }
    forall v | v in t.workers && t.workers[v].Answering? ensures Told(t.workers[v].ref, t.workers[v].answer) in all {
      if v != w {
        assert Told(s.workers[v].ref, s.workers[v].answer) in heard;
      }
    }
  }

  lemma NeverCalledYet(s: System, w: WorkerId, ref: MessageRef)
    requires Exclusive(s) && At(s, w).Dispatching? && WasCalled(s, ref)
    ensures ref != At(s, w).start.ref
  {
    var i :| 0 <= i < |s.calls| && s.calls[i].ref == ref;
    assert w in s.workers;
  }

  // ---- Each kind of step ----

  lemma OperatorLearnsNothing(s: System, a: Action)
    requires SystemInv(s) && ByOperator(a)
    ensures NothingLearnt(s.db, Step(s, a).db)
  {
    SameMessagesUnlearnt(s.db, s.db);
    match a
    case DoReplaceRecipients(command, ids, version) => ReplaceLearnsNothing(s.db, command, ids, version);
    case DoConfirm(command, version, token, checks, actor, now) =>
      ConfirmLearnsNothing(s.db, command, version, token, checks, actor, now);
    case DoRetry(command, requests, actor, templateAvailable, now) =>
      RetryLearnsNothing(s.db, command, requests, actor, templateAvailable, now);
    case _ => SameMessagesUnlearnt(s.db, Step(s, a).db);
  }

  lemma ClaimStepLearnsNothing(s: System, w: WorkerId, now: Time, locked: set<RecipientId>)
    ensures NothingLearnt(s.db, StepClaim(s, w, now, locked).db)
  {
    SameMessagesUnlearnt(s.db, s.db);
    if At(s, w).Reading? {
      ClaimLearnsNothing(s.db, At(s, w).command, At(s, w).candidates, now, locked);
    }
  }

  lemma PrepareStepLearnsNothing(s: System, w: WorkerId, templateAvailable: bool, now: Time)
    ensures NothingLearnt(s.db, StepPrepare(s, w, templateAvailable, now).db)
  {
    SameMessagesUnlearnt(s.db, s.db);
    if At(s, w).Draining? && At(s, w).queue != [] {
      PrepareLearnsNothing(s.db, At(s, w).queue[0], templateAvailable, now);
    }
  }

  lemma StartStepLearnsNothing(s: System, w: WorkerId, now: Time)
    ensures NothingLearnt(s.db, StepStart(s, w, now).db)
  {
    SameMessagesUnlearnt(s.db, s.db);
    if At(s, w).Admitted? && ValidRef(s.db, At(s, w).ref) {
      StartLearnsNothing(s.db, At(s, w).ref, now);
    }
  }

  lemma FinishStepLearnsNothing(s: System, w: WorkerId, now: Time)
    ensures NothingLearnt(s.db, StepFinish(s, w, now).db)
  {
    SameMessagesUnlearnt(s.db, StepFinish(s, w, now).db);
  }

  lemma WorkLearnsNothing(s: System, a: Action)
    requires !ByOperator(a) && !ByEnvironment(a) && !a.DoReconcile?
    ensures NothingLearnt(s.db, Step(s, a).db)
  {
    match a
    case DoRecover(now, locked) => RecoverLearnsNothing(s.db, now, locked);
    case DoClaim(w, now, locked) => ClaimStepLearnsNothing(s, w, now, locked);
    case DoPrepare(w, templateAvailable, now) => PrepareStepLearnsNothing(s, w, templateAvailable, now);
    case DoStart(w, now) => StartStepLearnsNothing(s, w, now);
    case DoFinish(w, now) => FinishStepLearnsNothing(s, w, now);
    case _ =>
      NothingWritten(s, a);
      SameMessagesUnlearnt(s.db, s.db);
  }

  lemma WorldLearnsNothing(s: System, a: Action)
    requires ByEnvironment(a) && !a.DeliveryStatusReceived?
    ensures NothingLearnt(s.db, Step(s, a).db)
  {
    SameMessagesUnlearnt(s.db, Step(s, a).db);
  }

  predicate Learns(a: Action) {
    a.DoReconcile? || a.DeliveryStatusReceived?
  }

  lemma OtherStepOutcomes(s: System, a: Action, heard: seq<Heard>)
    requires SystemInv(s) && OutcomesExplained(s.db, heard) && !Learns(a)
    ensures OutcomesExplained(Step(s, a).db, heard)
  {
    if ByOperator(a) {
      OperatorLearnsNothing(s, a);
    } else if ByEnvironment(a) {
      WorldLearnsNothing(s, a);
    } else {
      WorkLearnsNothing(s, a);
    }
    UnlearntExplained(s.db, Step(s, a).db, heard);
  }

  lemma ReconcileStepOutcomes(s: System, w: WorkerId, now: Time, heard: seq<Heard>)
    requires SystemInv(s) && OutcomesExplained(s.db, heard) && WorkersTruthful(s, heard)
    ensures OutcomesExplained(StepReconcile(s, w, now).db, heard)
  {
    if At(s, w).Answering? && ValidRef(s.db, At(s, w).ref) {
      ReconcileExplained(s.db, At(s, w).ref, At(s, w).answer, now, heard);
    }
  }

  lemma StepOutcomes(s: System, a: Action, heard: seq<Heard>)
    requires SystemInv(s) && Explained(s, heard)
    ensures OutcomesExplained(Step(s, a).db, heard + HeardAt(s, a))
  {
    if a.DeliveryStatusReceived? {
      StatusExplained(s, a, heard);
    } else {
      if a.DoReconcile? {
        ReconcileStepOutcomes(s, a.worker, a.now, heard);
      } else {
        OtherStepOutcomes(s, a, heard);
      }
      forall ref | ValidRef(Step(s, a).db, ref)
        ensures OutcomeExplained(MessageAt(Step(s, a).db, ref), ref, heard + HeardAt(s, a))
      {
        OutcomeStaysExplained(MessageAt(Step(s, a).db, ref), ref, heard, HeardAt(s, a));
      }
    }
  }

  lemma StepSuccessors(s: System, a: Action, heard: seq<Heard>)
    requires SystemInv(s) && Explained(s, heard)
    ensures SuccessorsExplained(Step(s, a).db, heard + HeardAt(s, a))
  {
    MoreHeard(s.db, heard, HeardAt(s, a));
    if a.DoRetry? {
      RetryFailedSuccessors(s.db, a, heard);
      assert heard + HeardAt(s, a) == heard;
    } else {
      SameSuccessors(s, a, heard + HeardAt(s, a));
    }
  }

  lemma RetryFailedSuccessors(db: Database, a: Action, heard: seq<Heard>)
    requires a.DoRetry? && DatabaseInv(db) && OutcomesExplained(db, heard) && SuccessorsExplained(db, heard)
    ensures var after := RetryFailed(db, a.command, a.requests, a.actor, a.templateAvailable, a.now);
            after.Some? ==> SuccessorsExplained(after.value, heard)
  {
    RetriedSuccessors(db, a.requests, a.actor, a.now, heard);
    var retried := RetryAll(db, a.requests, a.actor, a.now).db;
    var after := RetryFailed(db, a.command, a.requests, a.actor, a.templateAvailable, a.now);
    if after.Some? && after.value != db {
      forall ref | HasSuccessor(after.value, ref) ensures FailureHeard(heard, ref) {
        assert HasSuccessor(retried, ref);
      }
    }
  }

  lemma StepAnswers(s: System, a: Action, heard: seq<Heard>)
    requires SystemInv(s) && AnswersCalled(s, heard) && WorkersTruthful(s, heard)
    ensures AnswersCalled(Step(s, a), heard + HeardAt(s, a)) && WorkersTruthful(Step(s, a), heard + HeardAt(s, a))
  {
    if a.DoCall? && At(s, a.worker).Dispatching? {
      CallExplained(s, a.worker, a.answer, heard);
    } else if a.DoCall? {
      assert Step(s, a) == s && heard + HeardAt(s, a) == heard;
    } else {
      OnlyCallsAnswer(s, a);
      QuietCalls(s, Step(s, a), heard);
      if a.DeliveryStatusReceived? {
        StatusCalls(s, Step(s, a), a, heard);
      } else {
        assert heard + HeardAt(s, a) == heard;
      }
    }
  }

  // ---- Every run ----

  lemma {:induction false} RunExplained(s: System, actions: seq<Action>)
    requires Initial(s)
    ensures SystemInv(Run(s, actions)) && Explained(Run(s, actions), HeardIn(s, actions))
  {
    InitialInv(s);
    RunKeeps(s, actions);
    if actions != [] {
      var earlier, a := actions[..|actions| - 1], actions[|actions| - 1];
      RunExplained(s, earlier);
      StepOutcomes(Run(s, earlier), a, HeardIn(s, earlier));
      StepSuccessors(Run(s, earlier), a, HeardIn(s, earlier));
      StepAnswers(Run(s, earlier), a, HeardIn(s, earlier));
    }
  }

  /** Every stored outcome is what the provider said: acceptance with that id, refusal, or a delivery state. */
  lemma OutcomesWereHeard(s: System, actions: seq<Action>, ref: MessageRef)
    requires Initial(s) && ValidRef(Run(s, actions).db, ref)
    ensures var m, heard := MessageAt(Run(s, actions).db, ref), HeardIn(s, actions);
            && (m.dispatch.Accepted? ==> AcceptanceHeard(heard, ref, m.externalId))
            && (m.dispatch.DefinitiveFailed? ==> Told(ref, Refused) in heard)
            && (m.provider.Some? ==> StateHeard(heard, ref, m.provider.value))
  {
    RunExplained(s, actions);
    assert OutcomeExplained(MessageAt(Run(s, actions).db, ref), ref, HeardIn(s, actions));
  }

  /** A message is followed by another only if the provider refused it or reported it failed. */
  lemma SuccessorOnlyAfterHeardFailure(s: System, actions: seq<Action>, ref: MessageRef)
    requires Initial(s) && HasSuccessor(Run(s, actions).db, ref)
    ensures FailureHeard(HeardIn(s, actions), ref)
  {
    RunExplained(s, actions);
  }

  /** No message is answered twice, and only messages that were sent are. */
  lemma OneAnswerEach(s: System, actions: seq<Action>, ref: MessageRef, a: Answer, b: Answer)
    requires Initial(s) && Told(ref, a) in HeardIn(s, actions)
    ensures WasCalled(Run(s, actions), ref)
    ensures Told(ref, b) in HeardIn(s, actions) ==> a == b
  {
    RunExplained(s, actions);
  }

  /**
   A message whose acceptance is unknown is never taken for accepted, refused or failed, and no run
   sends its recipient another one.
   */
  lemma UnknownIsNeverRetried(s: System, actions: seq<Action>, ref: MessageRef)
    requires Initial(s) && Told(ref, AcceptanceUnknown) in HeardIn(s, actions)
    ensures var db := Run(s, actions).db;
            && ValidRef(db, ref) && !HasSuccessor(db, ref)
            && (MessageAt(db, ref).dispatch.InProgress? || MessageAt(db, ref).dispatch.Unknown?)
            && MessageAt(db, ref).provider.None? && MessageAt(db, ref).externalId.None?
  {
    RunExplained(s, actions);
    RunAccounted(s, actions);
    OnlyUnknownHeard(Run(s, actions), HeardIn(s, actions), ref);
    CalledIsHanded(Run(s, actions), ref);
    UnknownStored(Run(s, actions).db, HeardIn(s, actions), ref);
  }

  lemma OnlyUnknownHeard(t: System, heard: seq<Heard>, ref: MessageRef)
    requires AnswersCalled(t, heard) && Told(ref, AcceptanceUnknown) in heard
    ensures WasCalled(t, ref) && Told(ref, Refused) !in heard
    ensures forall externalId :: !AcceptanceHeard(heard, ref, externalId)
  {
  }

  lemma UnknownStored(db: Database, heard: seq<Heard>, ref: MessageRef)
    requires DatabaseInv(db) && HandedOver(db, ref) && OutcomesExplained(db, heard)
    requires Told(ref, Refused) !in heard && forall externalId :: !AcceptanceHeard(heard, ref, externalId)
    ensures !HasSuccessor(db, ref)
    ensures MessageAt(db, ref).dispatch.InProgress? || MessageAt(db, ref).dispatch.Unknown?
    ensures MessageAt(db, ref).provider.None? && MessageAt(db, ref).externalId.None?
  {
    assert RecipientInv(db.broadcast, ref.recipient, db.recipients[ref.recipient]);
    assert OutcomeExplained(MessageAt(db, ref), ref, heard);
  }

  lemma CalledIsHanded(t: System, ref: MessageRef)
    requires Accounted(t) && WasCalled(t, ref)
    ensures HandedOver(t.db, ref)
  {
    var i :| 0 <= i < |t.calls| && t.calls[i].ref == ref;
    assert WasHanded(t, ref);
  }
}
