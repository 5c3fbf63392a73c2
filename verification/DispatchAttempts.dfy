/**
 How many messages a broadcast has and when a new one appears: a first message for each claimed
 recipient, and afterwards only what an authorised retry of a failed message adds.
 */
module DispatchAttempts {
  import opened Wrappers
  import opened BroadcastModel
  import opened BroadcastTransactions
  import opened BroadcastInvariant
  import opened DispatchProtocol
  import opened DispatchSafety
  import Payload
  import Digest

  // ---- Counting ----

  function MessageCount(recipients: seq<Recipient>): nat {
    if recipients == [] then 0
    else MessageCount(recipients[..|recipients| - 1]) + |recipients[|recipients| - 1].messages|
  }

  function AttemptedCount(recipients: seq<Recipient>): nat {
    if recipients == [] then 0
    else AttemptedCount(recipients[..|recipients| - 1]) + (if recipients[|recipients| - 1].messages == [] then 0 else 1)
  }

  /** Messages beyond the first. */
  function Resends(r: Recipient): nat {
    if r.messages == [] then 0 else |r.messages| - 1
  }

  function ResendCount(recipients: seq<Recipient>): nat {
    if recipients == [] then 0
    else ResendCount(recipients[..|recipients| - 1]) + Resends(recipients[|recipients| - 1])
  }

  /** What the audit log says: the messages that retry commands reported. */
  function AuthorizedCount(audits: seq<Audit>): nat {
    if audits == [] then 0
    else
      var last := audits[|audits| - 1];
      AuthorizedCount(audits[..|audits| - 1]) + (if last.kind.RetryAuthorized? then last.affected else 0)
  }

  lemma {:induction false} MessagesAreFirstOrResent(recipients: seq<Recipient>)
    ensures MessageCount(recipients) == AttemptedCount(recipients) + ResendCount(recipients)
  {
    if recipients != [] {
      MessagesAreFirstOrResent(recipients[..|recipients| - 1]);
    }
  }

  lemma {:induction false} SameResends(a: seq<Recipient>, b: seq<Recipient>)
    requires |a| == |b| && forall i | 0 <= i < |a| :: Resends(a[i]) == Resends(b[i])
    ensures ResendCount(a) == ResendCount(b)
  {
    if a != [] {
      SameResends(a[..|a| - 1], b[..|b| - 1]);
    }
  }

  lemma {:induction false} OneMoreResend(a: seq<Recipient>, i: nat, r: Recipient)
    requires i < |a| && Resends(r) == Resends(a[i]) + 1
    ensures ResendCount(a[i := r]) == ResendCount(a) + 1
  {
    var b := a[i := r];
    var last := |a| - 1;
    if i == last {
      assert b[..last] == a[..last];
    } else {
      assert b[..last] == a[..last][i := r];
      OneMoreResend(a[..last], i, r);
    }
  }

  lemma {:induction false} NoResends(a: seq<Recipient>)
    requires forall i | 0 <= i < |a| :: Resends(a[i]) == 0
    ensures ResendCount(a) == 0
  {
    if a != [] {
      NoResends(a[..|a| - 1]);
    }
  }

  lemma {:induction false} OtherAudits(audits: seq<Audit>, more: seq<Audit>)
    requires forall i | 0 <= i < |more| :: !more[i].kind.RetryAuthorized?
    ensures AuthorizedCount(audits + more) == AuthorizedCount(audits)
  {
    if more == [] {
      assert audits + more == audits;
    } else {
      assert (audits + more)[..|audits + more| - 1] == audits + more[..|more| - 1];
      OtherAudits(audits, more[..|more| - 1]);
    }
  }

  // ---- Steps other than a retry ----

  predicate OnlyOtherAudits(db: Database, after: Database) {
    db.audits <= after.audits
    && forall i | |db.audits| <= i < |after.audits| :: !after.audits[i].kind.RetryAuthorized?
  }

  /** Resends stay as they are, recipient by recipient; a draft may replace its unattempted rows. */
  predicate NoResendAdded(db: Database, after: Database) {
    && OnlyOtherAudits(db, after)
    && (if |after.recipients| == |db.recipients|
        then forall i | 0 <= i < |db.recipients| :: Resends(db.recipients[i]) == Resends(after.recipients[i])
        else && (forall i | 0 <= i < |db.recipients| :: Resends(db.recipients[i]) == 0)
             && (forall i | 0 <= i < |after.recipients| :: Resends(after.recipients[i]) == 0))
  }

  predicate Conserved(db: Database) {
    ResendCount(db.recipients) == AuthorizedCount(db.audits)
  }

  lemma NoResendConserves(db: Database, after: Database)
    requires NoResendAdded(db, after) && Conserved(db)
    ensures Conserved(after)
  {
    assert after.audits == db.audits + after.audits[|db.audits|..];
    OtherAudits(db.audits, after.audits[|db.audits|..]);
    if |after.recipients| == |db.recipients| {
      SameResends(db.recipients, after.recipients);
    } else {
      NoResends(db.recipients);
      NoResends(after.recipients);
    }
  }

  lemma ReplaceAddsNoResend(db: Database, command: Uuid, ids: seq<CustomerId>, version: nat)
    requires DatabaseInv(db)
    ensures var after := ReplaceRecipients(db, command, ids, version);
            after.Some? ==> NoResendAdded(db, after.value)
  {
    SelectedRows(db, ids);
    assert db.broadcast.status.Draft? ==>
        forall i | 0 <= i < |db.recipients| ::
          RecipientInv(db.broadcast, i, db.recipients[i]) && db.recipients[i].messages == [];
  }

  lemma RecoverAddsNoResend(db: Database, now: Time, locked: set<RecipientId>)
    ensures NoResendAdded(db, RecoverStaleClaims(db, now, locked))
  {
  }

  lemma ClaimAddsNoResend(db: Database, command: Uuid, candidates: seq<Candidate>, now: Time, locked: set<RecipientId>)
    ensures var claim := ClaimRecipients(db, command, candidates, now, locked);
            claim.Some? ==> NoResendAdded(db, claim.value.db)
  {
  }

  lemma ConfirmAddsNoResend(db: Database, command: Uuid, version: nat, token: Uuid, checks: Checks, actor: UserId,
                            now: Time)
    ensures var after := Confirm(db, command, version, token, checks, actor, now);
            after.Some? ==> NoResendAdded(db, after.value)
  {
  }

  lemma PrepareAddsNoResend(db: Database, id: RecipientId, templateAvailable: bool, now: Time)
    ensures match PrepareDispatch(db, id, templateAvailable, now)
            case Raises => true
            case Skip(after) => NoResendAdded(db, after)
            case Dispatch(after, _) => NoResendAdded(db, after)
  {
  }

  lemma StartAddsNoResend(db: Database, ref: MessageRef, now: Time)
    requires ValidRef(db, ref)
    ensures NoResendAdded(db, StartDispatch(db, ref, now).db)
  {
  }

  lemma SameListAddsNoResend(db: Database, after: Database)
    requires OnlyOtherAudits(db, after) && |after.recipients| == |db.recipients|
    requires forall i | 0 <= i < |db.recipients| :: |after.recipients[i].messages| == |db.recipients[i].messages|
    ensures NoResendAdded(db, after)
  {
  }

  lemma DraftEditAddsNoResend(db: Database, draft: Digest.Draft, template: Payload.Template, version: nat)
    ensures var after := UpdateDraft(db, draft, template, version);
            after.Some? ==> NoResendAdded(db, after.value)
  {
  }

  lemma LaunchAddsNoResend(db: Database, command: Uuid, actor: UserId)
    ensures var after := Launch(db, command, actor);
            after.Some? ==> NoResendAdded(db, after.value)
  {
  }

  lemma ValidateAddsNoResend(s: System, version: nat, checks: Checks, token: Uuid, now: Time)
    ensures NoResendAdded(s.db, StepValidate(s, version, checks, token, now).db)
  {
  }

  lemma OtherOperatorAddsNoResend(s: System, a: Action)
    requires a.DoUpdateDraft? || a.DoValidate? || a.DoLaunch?
    ensures NoResendAdded(s.db, Step(s, a).db)
  {
    SameListAddsNoResend(s.db, s.db);
    match a
    case DoUpdateDraft(draft, template, version) => DraftEditAddsNoResend(s.db, draft, template, version);
    case DoValidate(version, checks, token, now) => ValidateAddsNoResend(s, version, checks, token, now);
    case DoLaunch(command, actor) => LaunchAddsNoResend(s.db, command, actor);
  }

  lemma OperatorAddsNoResend(s: System, a: Action)
    requires SystemInv(s) && ByOperator(a) && !a.DoRetry?
    ensures NoResendAdded(s.db, Step(s, a).db)
  {
    match a
    case DoReplaceRecipients(command, ids, version) =>
      ReplaceAddsNoResend(s.db, command, ids, version);
      SameListAddsNoResend(s.db, s.db);
    case DoConfirm(command, version, token, checks, actor, now) =>
      ConfirmAddsNoResend(s.db, command, version, token, checks, actor, now);
      SameListAddsNoResend(s.db, s.db);
    case _ => OtherOperatorAddsNoResend(s, a);
  }

  lemma ClaimStepAddsNoResend(s: System, w: WorkerId, now: Time, locked: set<RecipientId>)
    requires SystemInv(s)
    ensures NoResendAdded(s.db, StepClaim(s, w, now, locked).db)
  {
    SameListAddsNoResend(s.db, s.db);
    if At(s, w).Reading? {
      ClaimAddsNoResend(s.db, At(s, w).command, At(s, w).candidates, now, locked);
    }
  }

  lemma PrepareStepAddsNoResend(s: System, w: WorkerId, templateAvailable: bool, now: Time)
    ensures NoResendAdded(s.db, StepPrepare(s, w, templateAvailable, now).db)
  {
    SameListAddsNoResend(s.db, s.db);
    if At(s, w).Draining? && At(s, w).queue != [] {
      PrepareAddsNoResend(s.db, At(s, w).queue[0], templateAvailable, now);
    }
  }

  lemma StartStepAddsNoResend(s: System, w: WorkerId, now: Time)
    ensures NoResendAdded(s.db, StepStart(s, w, now).db)
  {
    SameListAddsNoResend(s.db, s.db);
    if At(s, w).Admitted? && ValidRef(s.db, At(s, w).ref) {
      StartAddsNoResend(s.db, At(s, w).ref, now);
    }
  }

  lemma ReconcileStepAddsNoResend(s: System, w: WorkerId, now: Time)
    ensures NoResendAdded(s.db, StepReconcile(s, w, now).db)
  {
    SameListAddsNoResend(s.db, StepReconcile(s, w, now).db);
  }

  lemma FinishStepAddsNoResend(s: System, w: WorkerId, now: Time)
    ensures NoResendAdded(s.db, StepFinish(s, w, now).db)
  {
    SameListAddsNoResend(s.db, StepFinish(s, w, now).db);
  }

  lemma WorkerAddsNoResend(s: System, a: Action)
    requires SystemInv(s) && !ByOperator(a) && !ByEnvironment(a)
    ensures NoResendAdded(s.db, Step(s, a).db)
  {
    match a
    case DoRecover(now, locked) => RecoverAddsNoResend(s.db, now, locked);
    case DoClaim(w, now, locked) => ClaimStepAddsNoResend(s, w, now, locked);
    case DoPrepare(w, templateAvailable, now) => PrepareStepAddsNoResend(s, w, templateAvailable, now);
    case DoStart(w, now) => StartStepAddsNoResend(s, w, now);
    case DoReconcile(w, now) => ReconcileStepAddsNoResend(s, w, now);
    case DoFinish(w, now) => FinishStepAddsNoResend(s, w, now);
    case _ =>
      NothingWritten(s, a);
      SameListAddsNoResend(s.db, s.db);
  }

  lemma StepAddsNoResend(s: System, a: Action)
    requires SystemInv(s) && !a.DoRetry?
    ensures NoResendAdded(s.db, Step(s, a).db)
  {
    if ByOperator(a) {
      OperatorAddsNoResend(s, a);
    } else if ByEnvironment(a) {
      SameListAddsNoResend(s.db, Step(s, a).db);
    } else {
      WorkerAddsNoResend(s, a);
    }
  }

  // ---- Retries ----

  /** A retry command adds at most one message per recipient, each after a failed one. */
  predicate RetriedAtMostOnce(r: Recipient, s: Recipient) {
    || (s.messages == r.messages && s.status == r.status)
    || (&& r.status.Failed? && r.messages != [] && MessageFailed(Latest(r))
        && |s.messages| == |r.messages| + 1 && s.messages[..|r.messages|] == r.messages
        && Latest(s).dispatch.Pending? && Latest(s).row.retryOf == Some(|r.messages| - 1)
        && s.status.Ready?)
  }

  lemma {:induction false} RetryAllCounts(db: Database, requests: seq<RetryRequest>, actor: UserId, now: Time)
    requires DatabaseInv(db)
    ensures var retried := RetryAll(db, requests, actor, now);
            && |retried.db.recipients| == |db.recipients| && retried.db.audits == db.audits
            && ResendCount(retried.db.recipients) == ResendCount(db.recipients) + retried.created
            && forall i | 0 <= i < |db.recipients| :: RetriedAtMostOnce(db.recipients[i], retried.db.recipients[i])
  {
    if requests != [] {
      var shorter := requests[..|requests| - 1];
      RetryAllCounts(db, shorter, actor, now);
      var before := RetryAll(db, shorter, actor, now);
      var request := requests[|requests| - 1];
      if Retryable(before.db, request) {
        var id := request.recipient;
        RetriedOnce(db.recipients[id], before.db, request, actor, now);
        OneMoreResend(before.db.recipients, id, RetryOne(before.db, request, actor, now).recipients[id]);
      }
    }
  }

  /** A recipient that was already retried is ready, so the next request for it is not served. */
  lemma RetriedOnce(r: Recipient, db: Database, request: RetryRequest, actor: UserId, now: Time)
    requires Sound(r) && Retryable(db, request) && RetriedAtMostOnce(r, db.recipients[request.recipient])
    ensures var s := RetryOne(db, request, actor, now).recipients[request.recipient];
            RetriedAtMostOnce(r, s) && Resends(s) == Resends(db.recipients[request.recipient]) + 1
  {
  }

  lemma RetryConserves(db: Database, command: Uuid, requests: seq<RetryRequest>, actor: UserId, templateAvailable: bool,
                       now: Time)
    requires DatabaseInv(db) && Conserved(db)
    ensures var after := RetryFailed(db, command, requests, actor, templateAvailable, now);
            after.Some? ==> Conserved(after.value)
  {
    RetryAllCounts(db, requests, actor, now);
  }

  lemma StepConserves(s: System, a: Action)
    requires SystemInv(s) && Conserved(s.db)
    ensures Conserved(Step(s, a).db)
  {
    if a.DoRetry? {
      RetryConserves(s.db, a.command, a.requests, a.actor, a.templateAvailable, a.now);
    } else {
      StepAddsNoResend(s, a);
      NoResendConserves(s.db, Step(s, a).db);
    }
  }

  lemma {:induction false} RunConserves(s: System, actions: seq<Action>)
    requires Initial(s)
    ensures SystemInv(Run(s, actions)) && Conserved(Run(s, actions).db)
  {
    InitialInv(s);
    RunKeeps(s, actions);
    if actions != [] {
      RunConserves(s, actions[..|actions| - 1]);
      StepConserves(Run(s, actions[..|actions| - 1]), actions[|actions| - 1]);
    }
  }

  /** Messages = recipients with a message + messages the retry commands reported, in every run. */
  lemma AttemptConservation(s: System, actions: seq<Action>)
    requires Initial(s)
    ensures var db := Run(s, actions).db;
            MessageCount(db.recipients) == AttemptedCount(db.recipients) + AuthorizedCount(db.audits)
  {
    RunConserves(s, actions);
    MessagesAreFirstOrResent(Run(s, actions).db.recipients);
  }

  /** What one step may append to the messages of a recipient. */
  predicate SucceedsOnlyFailed(before: Recipient, after: Recipient, a: Action)
    requires before.messages != []
  {
    && |before.messages| <= |after.messages| <= |before.messages| + 1
    && (|after.messages| > |before.messages| ==>
          && a.DoRetry? && before.status.Failed? && MessageFailed(Latest(before))
          && Latest(after).row.retryOf == Some(|before.messages| - 1))
  }

  lemma RetrySucceeds(db: Database, a: Action, i: nat)
    requires DatabaseInv(db) && a.DoRetry? && i < |db.recipients| && db.recipients[i].messages != []
    ensures var after := RetryFailed(db, a.command, a.requests, a.actor, a.templateAvailable, a.now);
            after.Some? ==> |after.value.recipients| == |db.recipients|
                            && SucceedsOnlyFailed(db.recipients[i], after.value.recipients[i], a)
  {
    RetryAllCounts(db, a.requests, a.actor, a.now);
  }

  lemma OthersAppendNothing(s: System, a: Action, i: nat)
    requires SystemInv(s) && !a.DoRetry? && i < |s.db.recipients| && s.db.recipients[i].messages != []
    ensures i < |Step(s, a).db.recipients| && |Step(s, a).db.recipients[i].messages| == |s.db.recipients[i].messages|
  {
    StepKeeps(s, a);
    assert MessagesAdvance(s.db.recipients[i], Step(s, a).db.recipients[i]);
    StepAddsNoResend(s, a);
    assert RecipientInv(s.db.broadcast, i, s.db.recipients[i]);
  }

  /**
   A message gets a successor only from a retry command, only while the recipient is failed and
   its latest message has failed, and then exactly one that names it.
   */
  lemma SuccessorOnlyAfterFailure(s: System, actions: seq<Action>, a: Action, i: nat)
    requires Initial(s) && i < |Run(s, actions).db.recipients|
    requires Run(s, actions).db.recipients[i].messages != []
    ensures var before := Run(s, actions).db.recipients[i];
            var t := Step(Run(s, actions), a);
            i < |t.db.recipients| && SucceedsOnlyFailed(before, t.db.recipients[i], a)
  {
    RunConserves(s, actions);
    var r := Run(s, actions);
    if a.DoRetry? {
      RetrySucceeds(r.db, a, i);
    } else {
      OthersAppendNothing(r, a, i);
    }
  }

  /** In every reachable state the messages of a recipient are one chain with settled predecessors. */
  lemma RetryChain(s: System, actions: seq<Action>, i: nat)
    requires Initial(s) && i < |Run(s, actions).db.recipients|
    ensures Chained(Run(s, actions).db.recipients[i].messages)
  {
    RunConserves(s, actions);
    assert RecipientInv(Run(s, actions).db.broadcast, i, Run(s, actions).db.recipients[i]);
  }
}
