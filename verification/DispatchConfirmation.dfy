/**
 What is confirmed is what was validated: a confirmation that takes effect uses the draft, the
 recipients and the consent events of the validation that issued its token, and none of them
 changes afterwards.
 */
module DispatchConfirmation {
  import opened Wrappers
  import opened BroadcastModel
  import opened BroadcastTransactions
  import opened BroadcastInvariant
  import opened DispatchProtocol
  import opened DispatchSafety
  import Digest

  predicate IssuedFor(db: Database, v: Validation) {
    && v.draft == db.broadcast.draft
    && v.selections == Selections(db)
    && |v.events| == |v.selections|
    && db.broadcast.validationDigest
       == Digest.Of(db.broadcast.id, db.broadcast.version, v.draft, v.selections, v.events)
  }

  /** A live token belongs to the last validation, whose inputs are still those of the draft. */
  predicate TokenInv(s: System) {
    && (s.db.broadcast.validationToken.Some? ==>
          && s.db.broadcast.status.Draft?
          && s.validations != []
          && var last := s.validations[|s.validations| - 1];
             last.token == s.db.broadcast.validationToken.value && IssuedFor(s.db, last))
    && (forall i, j | 0 <= i < j < |s.validations| :: s.validations[i].token != s.validations[j].token)
  }

  lemma ValidateKeepsToken(s: System, version: nat, checks: Checks, token: Uuid, now: Time)
    requires TokenInv(s)
    ensures TokenInv(StepValidate(s, version, checks, token, now))
  {
    var t := StepValidate(s, version, checks, token, now);
    if t != s && ValidSnapshot(s.db, checks, now) {
      assert Selections(t.db) == Selections(s.db);
      assert IssuedFor(t.db, t.validations[|t.validations| - 1]);
    }
  }

  /** Outside the draft transactions the inputs of a draft do not move. */
  predicate DraftUntouched(db: Database, after: Database) {
    && (after.broadcast.validationToken.Some? ==> after.broadcast.validationToken == db.broadcast.validationToken)
    && (after.broadcast.validationToken.Some? && db.broadcast.status.Draft? ==>
          && after.broadcast.status == db.broadcast.status
          && after.broadcast.id == db.broadcast.id && after.broadcast.version == db.broadcast.version
          && after.broadcast.draft == db.broadcast.draft
          && after.broadcast.validationDigest == db.broadcast.validationDigest
          && after.recipients == db.recipients)
  }

  lemma UntouchedKeepsToken(s: System, t: System)
    requires TokenInv(s) && t.validations == s.validations && DraftUntouched(s.db, t.db)
    ensures TokenInv(t)
  {
    if t.db.broadcast.validationToken.Some? {
      assert Selections(t.db) == Selections(s.db);
    }
  }

  predicate NothingAttempted(db: Database) {
    forall i | 0 <= i < |db.recipients| :: db.recipients[i].status.Draft? && db.recipients[i].messages == []
  }

  /** While the broadcast is a draft, no worker holds anything and no message can be retried. */
  lemma DraftAttemptsNothing(s: System)
    requires SystemInv(s) && s.db.broadcast.status.Draft?
    ensures NothingAttempted(s.db) && forall w | w in s.workers :: s.workers[w].Idle? || s.workers[w].Reading?
  {
    forall i | 0 <= i < |s.db.recipients|
      ensures s.db.recipients[i].status.Draft? && s.db.recipients[i].messages == []
    {
      assert RecipientInv(s.db.broadcast, i, s.db.recipients[i]);
    }
    assert forall w | w in s.workers :: WorkerInv(s.db, s.workers[w]);
  }

  lemma {:induction false} DraftServesNoRetry(db: Database, requests: seq<RetryRequest>, actor: UserId, now: Time)
    requires NothingAttempted(db)
    ensures RetryAll(db, requests, actor, now) == Retried(db, 0)
  {
    if requests != [] {
      DraftServesNoRetry(db, requests[..|requests| - 1], actor, now);
    }
  }

  lemma DraftRetries(db: Database, command: Uuid, requests: seq<RetryRequest>, actor: UserId, templateAvailable: bool,
                     now: Time)
    requires NothingAttempted(db)
    ensures var after := RetryFailed(db, command, requests, actor, templateAvailable, now);
            after.Some? ==> DraftUntouched(db, after.value)
  {
    DraftServesNoRetry(db, requests, actor, now);
  }

  lemma DraftHasNoAttempts(s: System, a: Action)
    requires SystemInv(s) && s.db.broadcast.status.Draft? && !DraftAction(a)
    ensures DraftUntouched(s.db, Step(s, a).db)
  {
    DraftAttemptsNothing(s);
    if a.DoRetry? {
      DraftRetries(s.db, a.command, a.requests, a.actor, a.templateAvailable, a.now);
    } else if !ByOperator(a) && !ByEnvironment(a) {
      WorkersLeaveDraft(s, a);
    } else {
      WorldLeavesDraft(s, a);
    }
  }

  lemma WorldLeavesDraft(s: System, a: Action)
    requires NothingAttempted(s.db) && s.db.broadcast.status.Draft? && (a.DoLaunch? || ByEnvironment(a))
    ensures DraftUntouched(s.db, Step(s, a).db)
  {
  }

  lemma WorkersLeaveDraft(s: System, a: Action)
    requires NothingAttempted(s.db) && s.db.broadcast.status.Draft? && s.db.broadcast.startedBy.None?
    requires forall w | w in s.workers :: s.workers[w].Idle? || s.workers[w].Reading?
    requires !ByOperator(a) && !ByEnvironment(a)
    ensures DraftUntouched(s.db, Step(s, a).db)
  {
  }

  predicate DraftAction(a: Action) {
    a.DoReplaceRecipients? || a.DoUpdateDraft? || a.DoValidate? || a.DoConfirm?
  }

  lemma DraftStepKeepsToken(s: System, a: Action)
    requires TokenInv(s) && DraftAction(a)
    ensures TokenInv(Step(s, a))
  {
    if a.DoValidate? {
      ValidateKeepsToken(s, a.version, a.checks, a.token, a.now);
    } else {
      UntouchedKeepsToken(s, Step(s, a));
    }
  }

  lemma OtherStepKeepsToken(s: System, a: Action)
    requires SystemInv(s) && TokenInv(s) && !DraftAction(a)
    ensures TokenInv(Step(s, a))
  {
    if s.db.broadcast.status.Draft? {
      DraftHasNoAttempts(s, a);
    } else {
      NoTokenAppears(s, a);
    }
    OtherStepValidatesNothing(s, a);
    UntouchedKeepsToken(s, Step(s, a));
  }

  lemma OtherStepValidatesNothing(s: System, a: Action)
    requires !DraftAction(a)
    ensures Step(s, a).validations == s.validations
  {
  }

  lemma NoTokenAppears(s: System, a: Action)
    requires SystemInv(s) && TokenInv(s) && !s.db.broadcast.status.Draft? && !DraftAction(a)
    ensures Step(s, a).db.broadcast.validationToken.None?
  {
    if a.DoRetry? {
      RetryAllKeeps(s.db, a.requests, a.actor, a.now);
    } else if !ByOperator(a) && !ByEnvironment(a) {
      WorkerLeavesToken(s, a);
    }
  }

  lemma WorkerLeavesToken(s: System, a: Action)
    requires !ByOperator(a) && !ByEnvironment(a)
    ensures Step(s, a).db.broadcast.validationToken == s.db.broadcast.validationToken
  {
  }

  lemma {:induction false} RunKeepsToken(s: System, actions: seq<Action>)
    requires Initial(s)
    ensures SystemInv(Run(s, actions)) && TokenInv(Run(s, actions))
  {
    InitialInv(s);
    RunKeeps(s, actions);
    if actions != [] {
      RunKeepsToken(s, actions[..|actions| - 1]);
      var before, a := Run(s, actions[..|actions| - 1]), actions[|actions| - 1];
      if DraftAction(a) {
        DraftStepKeepsToken(before, a);
      } else {
        OtherStepKeepsToken(before, a);
      }
    }
  }

  lemma ConfirmedAsValidated(before: System, command: Uuid, version: nat, token: Uuid, checks: Checks, actor: UserId,
                             now: Time)
    requires SystemInv(before) && TokenInv(before) && before.db.broadcast.status.Draft?
    requires Step(before, DoConfirm(command, version, token, checks, actor, now)).db.broadcast.status.Confirmed?
    ensures var db := Step(before, DoConfirm(command, version, token, checks, actor, now)).db;
            exists n | 0 <= n < |before.validations| :: ConfirmsAs(before, db, token, now, before.validations[n])
  {
    var v := before.validations[|before.validations| - 1];
    var db := Step(before, DoConfirm(command, version, token, checks, actor, now)).db;
    Digest.ConsentsBound(before.db.broadcast.id, before.db.broadcast.version, v.draft, v.selections,
                         ConsentEvents(before.db, now), v.events);
    assert Selections(db) == Selections(before.db);
    assert ConfirmsAs(before, db, token, now, v);
  }

  /** The confirmed database holds the inputs of that validation, each recipient eligible at the time. */
  predicate ConfirmsAs(before: System, db: Database, token: Uuid, now: Time, v: Validation) {
    && v.token == token && v.draft == db.broadcast.draft && v.selections == Selections(db)
    && |v.events| == |db.recipients| == |before.db.recipients|
    && forall i | 0 <= i < |db.recipients| ::
         db.recipients[i].consentEvent == Some(v.events[i]) && Eligible(before.db, before.db.recipients[i], now)
  }

  /**
   A confirmation that takes effect names the validation that issued its token: same draft, same
   recipients with their phones, and the consent events it stores are the validated ones, all
   opt-ins in force at the time of the confirmation.
   */
  lemma ValidatedEqualsConfirmed(s: System, actions: seq<Action>, command: Uuid, version: nat, token: Uuid,
                                 checks: Checks, actor: UserId, now: Time)
    requires Initial(s)
    requires Run(s, actions).db.broadcast.status.Draft?
    requires Step(Run(s, actions),
                  DoConfirm(command, version, token, checks, actor, now)).db.broadcast.status.Confirmed?
    ensures var before := Run(s, actions);
            var db := Step(before, DoConfirm(command, version, token, checks, actor, now)).db;
            exists n | 0 <= n < |before.validations| :: ConfirmsAs(before, db, token, now, before.validations[n])
  {
    RunKeepsToken(s, actions);
    ConfirmedAsValidated(Run(s, actions), command, version, token, checks, actor, now);
  }

  /** From the confirmation on, the draft, the recipients, their phones and their consents are fixed. */
  lemma ConfirmedInputsFixed(s: System, first: seq<Action>, rest: seq<Action>)
    requires Initial(s) && !Run(s, first).db.broadcast.status.Draft?
    ensures Frozen(Run(s, first).db, Run(Run(s, first), rest).db)
    ensures Selections(Run(Run(s, first), rest).db) == Selections(Run(s, first).db)
  {
    RunKeepsToken(s, first);
    RunKeeps(Run(s, first), rest);
    var db := Run(s, first).db;
    var after := Run(Run(s, first), rest).db;
    assert forall i | 0 <= i < |db.recipients| :: SameSelection(db.recipients[i], after.recipients[i]);
  }
}
