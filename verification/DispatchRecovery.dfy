/**
 Recovery of stale claims, over the columns: which recipients it takes back, what becomes of them,
 and that it leaves every younger claim alone.
 */
module DispatchRecovery {
  import opened Wrappers
  import opened BroadcastModel
  import opened BroadcastTransactions
  import opened BroadcastInvariant
  import opened DispatchProtocol
  import opened DispatchSafety
  import opened DispatchStranded

  /** In progress, with a claim made before the timeout. */
  predicate Expired(db: Database, i: RecipientId, now: Time)
    requires i < |db.recipients|
  {
    && db.recipients[i].status == RecipientStatus.InProgress
    && db.recipients[i].claimedAt.Some?
    && db.recipients[i].claimedAt.value < now - db.settings.claimTimeout
  }

  /** For every database and clock: exactly the expired claims that nobody holds locked are taken back. */
  lemma RecoveredIff(db: Database, now: Time, locked: set<RecipientId>, i: RecipientId)
    requires i < |db.recipients|
    ensures |RecoverStaleClaims(db, now, locked).recipients| == |db.recipients|
    ensures RecoverStaleClaims(db, now, locked).recipients[i] != db.recipients[i]
            <==> db.broadcast.status.Processing? && i !in locked && Expired(db, i, now)
  {
    if db.recipients[i].status == RecipientStatus.InProgress {
      RecoverChanges(db.recipients[i]);
    }
  }

  lemma RecoverChanges(r: Recipient)
    requires r.status == RecipientStatus.InProgress
    ensures Recover(r) != r
  {
  }

  /** Recovered are exactly the expired claims that nobody holds locked, in id order. */
  lemma {:induction false} RecoveriesAudited(db: Database, now: Time, locked: set<RecipientId>, upTo: nat)
    requires upTo <= |db.recipients|
    ensures var ids := StaleIds(db.recipients, now - db.settings.claimTimeout, locked, upTo);
            && (forall i: nat :: i in ids <==> i < upTo && i !in locked && Expired(db, i, now))
            && forall m, n | 0 <= m < n < |ids| :: ids[m] < ids[n]
  {
    if upTo > 0 {
      RecoveriesAudited(db, now, locked, upTo - 1);
      var before := StaleIds(db.recipients, now - db.settings.claimTimeout, locked, upTo - 1);
      assert forall m | 0 <= m < |before| :: before[m] in before;
    }
  }

  /** Each of them is audited, and no other table is touched. */
  lemma RecoveryAudits(db: Database, now: Time, locked: set<RecipientId>)
    requires db.broadcast.status.Processing?
    ensures var after := RecoverStaleClaims(db, now, locked);
            var recovered := StaleIds(db.recipients, now - db.settings.claimTimeout, locked, |db.recipients|);
            && (forall i: nat :: i in recovered <==> i < |db.recipients| && i !in locked && Expired(db, i, now))
            && (forall m, n | 0 <= m < n < |recovered| :: recovered[m] < recovered[n])
            && |after.audits| == |db.audits| + |recovered|
            && db.audits <= after.audits
            && (forall n | |db.audits| <= n < |after.audits| ::
                  after.audits[n] == Audit(StaleClaimRecovered, None, 0))
            && after == db.(recipients := after.recipients, audits := after.audits)
  {
    RecoveriesAudited(db, now, locked, |db.recipients|);
  }

  /**
   What becomes of a recovered recipient: ready again with the same pending message, or unknown when
   its message was in flight; it has no claim, and nothing else of it moves.
   */
  lemma RecoveredColumns(r: Recipient)
    requires Sound(r) && r.status == RecipientStatus.InProgress
    ensures var s, last := Recover(r), |r.messages| - 1;
            && last >= 0 && OnlyMessageChanged(r.(claimToken := None, claimedAt := None), s, last)
            && (if r.messages[last].dispatch == DispatchState.Pending
                then s.status == RecipientStatus.Ready && s.messages == r.messages
                else && s.status == RecipientStatus.Unknown && r.messages[last].dispatch == DispatchState.InProgress
                     && s.messages[last] == r.messages[last].(dispatch := DispatchState.Unknown))
  {
  }

  /** A claimed recipient without a message, which no run reaches, would be ready again. */
  lemma RecoveredUnsent(r: Recipient)
    requires r.messages == []
    ensures var s := Recover(r);
            && s.status == RecipientStatus.Ready && s.claimToken == None && s.claimedAt == None
            && r == s.(status := r.status, claimToken := r.claimToken, claimedAt := r.claimedAt)
  {
  }

  /** A claim that has not expired survives every recovery of every run. */
  lemma FreshClaimSurvives(s: System, actions: seq<Action>, n: nat, i: RecipientId)
    requires n < |actions| && actions[n].DoRecover? && i < |Run(s, actions[..n]).db.recipients|
    requires var r := Run(s, actions[..n]).db.recipients[i];
             r.claimedAt.Some? && r.claimedAt.value >= actions[n].now - Run(s, actions[..n]).db.settings.claimTimeout
    ensures i < |Run(s, actions[..n + 1]).db.recipients|
    ensures Run(s, actions[..n + 1]).db.recipients[i] == Run(s, actions[..n]).db.recipients[i]
  {
    var before := Run(s, actions[..n]);
    assert actions[..n + 1][..n] == actions[..n];
    RecoveredIff(before.db, actions[n].now, actions[n].locked, i);
  }

  // ---- Who ends a claim ----

  predicate Claimed(db: Database, i: RecipientId) {
    i < |db.recipients| && db.recipients[i].status.InProgress? && db.recipients[i].claimToken.Some?
  }

  predicate KeepsClaim(db: Database, after: Database, i: RecipientId)
    requires i < |db.recipients|
  {
    && i < |after.recipients|
    && after.recipients[i].claimToken == db.recipients[i].claimToken
    && after.recipients[i].claimedAt == db.recipients[i].claimedAt
  }

  /** A recovery after the timeout. */
  predicate TakenBack(db: Database, a: Action, i: RecipientId)
    requires i < |db.recipients|
  {
    a.DoRecover? && i !in a.locked && Expired(db, i, a.now)
  }

  /** A worker that has the recipient blocks it. */
  predicate BlockedBy(s: System, a: Action, i: RecipientId) {
    || (a.DoPrepare? && At(s, a.worker).Draining? && At(s, a.worker).queue != [] && At(s, a.worker).queue[0] == i)
    || (a.DoStart? && At(s, a.worker).Admitted? && At(s, a.worker).ref.recipient == i)
  }

  lemma SameRowKeeps(db: Database, after: Database, i: RecipientId)
    requires i < |db.recipients| && i < |after.recipients| && after.recipients[i] == db.recipients[i]
    ensures KeepsClaim(db, after, i)
  {
  }

  lemma {:induction false} RetryAllKeepsRow(db: Database, requests: seq<RetryRequest>, actor: UserId, now: Time,
                                            i: RecipientId)
    requires i < |db.recipients| && !db.recipients[i].status.Failed?
    ensures var after := RetryAll(db, requests, actor, now).db;
            |after.recipients| == |db.recipients| && after.recipients[i] == db.recipients[i]
  {
    if requests != [] {
      RetryAllKeepsRow(db, requests[..|requests| - 1], actor, now, i);
    }
  }

  lemma RetryKeepsRow(db: Database, command: Uuid, requests: seq<RetryRequest>, actor: UserId, templateAvailable: bool,
                      now: Time, i: RecipientId)
    requires i < |db.recipients| && !db.recipients[i].status.Failed?
    ensures var after := RetryFailed(db, command, requests, actor, templateAvailable, now);
            after.Some? ==> i < |after.value.recipients| && after.value.recipients[i] == db.recipients[i]
  {
    RetryAllKeepsRow(db, requests, actor, now, i);
  }

  lemma OutOfDraft(db: Database, i: RecipientId)
    requires DatabaseInv(db) && Claimed(db, i)
    ensures !db.broadcast.status.Draft? && !db.broadcast.status.Confirmed?
  {
    assert RecipientInv(db.broadcast, i, db.recipients[i]);
  }

  lemma OperatorKeepsClaim(s: System, a: Action, i: RecipientId)
    requires SystemInv(s) && Claimed(s.db, i) && ByOperator(a)
    ensures KeepsClaim(s.db, Step(s, a).db, i)
  {
    if a.DoRetry? {
      RetryKeepsRow(s.db, a.command, a.requests, a.actor, a.templateAvailable, a.now, i);
    } else {
      OutOfDraft(s.db, i);
      OperatorsWait(s, a);
    }
  }

  lemma ClaimKeepsClaim(s: System, w: WorkerId, now: Time, locked: set<RecipientId>, i: RecipientId)
    requires Claimed(s.db, i)
    ensures KeepsClaim(s.db, StepClaim(s, w, now, locked).db, i)
  {
    if At(s, w).Reading? {
      assert i !in Claimable(s.db, At(s, w).candidates, locked);
    }
  }

  lemma PrepareKeepsClaim(s: System, w: WorkerId, templateAvailable: bool, now: Time, i: RecipientId)
    requires Claimed(s.db, i) && !BlockedBy(s, DoPrepare(w, templateAvailable, now), i)
    ensures KeepsClaim(s.db, StepPrepare(s, w, templateAvailable, now).db, i)
  {
  }

  lemma StartKeepsClaim(s: System, w: WorkerId, now: Time, i: RecipientId)
    requires Claimed(s.db, i) && !BlockedBy(s, DoStart(w, now), i)
    ensures KeepsClaim(s.db, StepStart(s, w, now).db, i)
  {
  }

  lemma AnswerKeepsClaim(s: System, w: WorkerId, now: Time, i: RecipientId)
    requires Claimed(s.db, i)
    ensures KeepsClaim(s.db, StepReconcile(s, w, now).db, i)
    ensures KeepsClaim(s.db, StepFinish(s, w, now).db, i)
  {
  }

  lemma WorkerKeepsClaim(s: System, a: Action, i: RecipientId)
    requires Claimed(s.db, i) && !ByOperator(a) && !ByEnvironment(a)
    requires !TakenBack(s.db, a, i) && !BlockedBy(s, a, i)
    ensures KeepsClaim(s.db, Step(s, a).db, i)
  {
    match a
    case DoRecover(now, locked) => RecoveredIff(s.db, now, locked, i);
    case DoClaim(w, now, locked) => ClaimKeepsClaim(s, w, now, locked, i);
    case DoPrepare(w, templateAvailable, now) => PrepareKeepsClaim(s, w, templateAvailable, now, i);
    case DoStart(w, now) => StartKeepsClaim(s, w, now, i);
    case DoReconcile(w, now) => AnswerKeepsClaim(s, w, now, i);
    case DoFinish(w, now) => AnswerKeepsClaim(s, w, now, i);
    case _ => NothingWritten(s, a);
  }

  lemma StatusKeepsClaim(db: Database, ref: MessageRef, provider: ProviderState, evidence: Evidence, i: RecipientId)
    requires i < |db.recipients|
    ensures KeepsClaim(db, DeliveryStatus(db, ref, provider, evidence), i)
  {
  }

  lemma EnvironmentKeepsClaim(s: System, a: Action, i: RecipientId)
    requires Claimed(s.db, i) && ByEnvironment(a)
    ensures KeepsClaim(s.db, Step(s, a).db, i)
  {
    if a.DeliveryStatusReceived? {
      StatusKeepsClaim(s.db, a.ref, a.provider, a.evidence, i);
    } else {
      SameRowKeeps(s.db, Step(s, a).db, i);
    }
  }

  /** In every run a claim ends only by a recovery after the timeout or by the worker that has the recipient. */
  lemma ClaimEndsOnlyBy(s: System, actions: seq<Action>, a: Action, i: RecipientId)
    requires Initial(s) && Claimed(Run(s, actions).db, i)
    ensures var t := Run(s, actions);
            KeepsClaim(t.db, Step(t, a).db, i) || TakenBack(t.db, a, i) || BlockedBy(t, a, i)
  {
    InitialInv(s);
    RunKeeps(s, actions);
    var t := Run(s, actions);
    if !TakenBack(t.db, a, i) && !BlockedBy(t, a, i) {
      if ByOperator(a) {
        OperatorKeepsClaim(t, a, i);
      } else if ByEnvironment(a) {
        EnvironmentKeepsClaim(t, a, i);
      } else {
        WorkerKeepsClaim(t, a, i);
      }
    }
  }
}
