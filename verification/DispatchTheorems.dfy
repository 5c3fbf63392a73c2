/**
 What the dispatch protocol guarantees in every run that starts from a fresh draft, whatever the
 workers, operators and environment do and wherever workers stop.
 */
module DispatchTheorems {
  import opened Wrappers
  import opened BroadcastModel
  import opened BroadcastTransactions
  import opened BroadcastInvariant
  import opened DispatchProtocol
  import opened DispatchSafety
  import Consent
  import Payload

  lemma Reachable(s: System, actions: seq<Action>)
    requires Initial(s)
    ensures SystemInv(Run(s, actions))
  {
    InitialInv(s);
    RunKeeps(s, actions);
  }

  /** No message is handed to the provider twice, even when two workers held plans for it. */
  lemma AtMostOnce(s: System, actions: seq<Action>)
    requires Initial(s)
    ensures var calls := Run(s, actions).calls;
            forall i, j | 0 <= i < j < |calls| :: calls[i].ref != calls[j].ref
  {
    Reachable(s, actions);
  }

  /**
   When the dispatch behind a provider call started, the newest consent event in force for that
   customer and phone was an opt-in, and the customer existed, was not deleted and had that phone.
   */
  lemma ConsentGate(s: System, actions: seq<Action>)
    requires Initial(s)
    ensures var t := Run(s, actions);
            forall i | 0 <= i < |t.calls| :: Consented(t.db, t.calls[i])
  {
    Reachable(s, actions);
    var t := Run(s, actions);
    assert forall i | 0 <= i < |t.calls| :: GoodStart(t.db, t.calls[i]);
  }

  /**
   Only replayable messages are ever sent: none at all when the template is not replayable, and
   none that a user other than the starter authorised.
   */
  lemma OnlyReplayableSent(s: System, actions: seq<Action>, i: nat)
    requires Initial(s) && i < |Run(s, actions).calls|
    ensures var t := Run(s, actions);
            && ValidRef(t.db, t.calls[i].ref)
            && Payload.Replayable(t.db.broadcast.template)
            && t.db.broadcast.startedBy == Some(MessageAt(t.db, t.calls[i].ref).row.sentBy)
  {
    Reachable(s, actions);
    assert GoodStart(Run(s, actions).db, Run(s, actions).calls[i]);
  }

  /** A retry stored for another user than the starter is stuck: no continuation ever sends it. */
  lemma RetryByAnotherNeverSent(s: System, first: seq<Action>, rest: seq<Action>, ref: MessageRef)
    requires Initial(s)
    requires ValidRef(Run(s, first).db, ref)
    requires Run(s, first).db.broadcast.startedBy != Some(MessageAt(Run(s, first).db, ref).row.sentBy)
    ensures var t := Run(Run(s, first), rest);
            forall i | 0 <= i < |t.calls| :: t.calls[i].ref != ref
  {
    Reachable(s, first);
    var middle := Run(s, first);
    RunKeeps(middle, rest);
    var t := Run(middle, rest);
    RefPersists(middle.db, t.db, ref);
    assert RecipientInv(middle.db.broadcast, ref.recipient, middle.db.recipients[ref.recipient]);
    forall i | 0 <= i < |t.calls| ensures t.calls[i].ref != ref {
      assert GoodStart(t.db, t.calls[i]);
    }
  }

  // ---- Projection agreement ----

  /** What the stored status of a reachable recipient says about its messages. */
  predicate StatusAgrees(r: Recipient) {
    && (r.messages != [] ==> r.status.Blocked? || r.status == StatusOf(r.claimToken, Latest(r)))
    && (r.messages != [] ==> SpelledOut(r))
    && (r.messages != [] ==> r.evidence == LatestEvidence(r.messages))
    && (r.status.Ready? ==> r.messages == [] || Latest(r).dispatch.Pending?)
    && (r.status.InProgress? ==>
          r.messages != [] && (Latest(r).dispatch.Pending? || Latest(r).dispatch.InProgress?)
          && (Latest(r).dispatch.Pending? ==> r.claimToken.Some?)
          && (r.claimToken.Some? <==> r.reason.None?))
    && (r.status.Failed? ==> r.messages != [] && MessageFailed(Latest(r)))
    && (r.status.Blocked? ==> r.messages != [] && r.claimToken.None?)
  }

  lemma ProjectionAgreement(s: System, actions: seq<Action>, i: nat)
    requires Initial(s) && i < |Run(s, actions).db.recipients|
    ensures StatusAgrees(Run(s, actions).db.recipients[i])
  {
    Reachable(s, actions);
    var t := Run(s, actions);
    assert RecipientInv(t.db.broadcast, i, t.db.recipients[i]);
    SoundAgrees(t.db.recipients[i]);
  }

  lemma SoundAgrees(r: Recipient)
    requires Sound(r)
    ensures StatusAgrees(r)
  {
    if r.messages != [] {
      SoundIsSpelledOut(r);
    }
  }

  /** Claiming never meets an attempt that already left the pending state. */
  lemma ClaimNeverBlocks(s: System, actions: seq<Action>, i: nat, clientId: Uuid, command: Uuid, now: Time)
    requires Initial(s) && i < |Run(s, actions).db.recipients|
    requires Run(s, actions).db.recipients[i].status.Ready? && Run(s, actions).db.broadcast.status.Processing?
    ensures var db := Run(s, actions).db;
            && db.broadcast.startedBy.Some?
            && Claim(db.recipients[i], InitialMessage(db, i, clientId, db.broadcast.startedBy.value, now), command, now)
               .status.InProgress?
  {
    Reachable(s, actions);
    ClaimedRecipient(Run(s, actions).db, i, clientId, command, now);
  }

  /** Recovering a stale claim always finds a pending or an in-progress message. */
  lemma RecoveryNeverMeetsReconciled(s: System, actions: seq<Action>, i: nat, threshold: Time)
    requires Initial(s) && i < |Run(s, actions).db.recipients|
    requires Stale(Run(s, actions).db.recipients[i], threshold)
    ensures var r := Run(s, actions).db.recipients[i];
            && r.messages != []
            && Recover(r).status
               == (if Latest(r).dispatch.Pending? then RecipientStatus.Ready else RecipientStatus.Unknown)
  {
    ProjectionAgreement(s, actions, i);
    RecoveredStatus(Run(s, actions).db.recipients[i]);
  }

  lemma RecoveredStatus(r: Recipient)
    requires StatusAgrees(r) && r.status.InProgress?
    ensures Recover(r).status
            == (if Latest(r).dispatch.Pending? then RecipientStatus.Ready else RecipientStatus.Unknown)
  {
  }

  /** A worker's plan always finds its stored message, so replaying never creates another one. */
  lemma PlanFindsItsMessage(s: System, actions: seq<Action>, w: WorkerId)
    requires Initial(s) && At(Run(s, actions), w).Holding?
    ensures var t := Run(s, actions);
            exists ref | ValidRef(t.db, ref) ::
              ref.recipient == At(t, w).plan.recipient
              && MessageAt(t.db, ref).row.clientId == At(t, w).plan.input.clientId
  {
    Reachable(s, actions);
    var t := Run(s, actions);
    var plan := At(t, w).plan;
    assert WorkerInv(t.db, t.workers[w]);
    var r := t.db.recipients[plan.recipient];
    var k :| 0 <= k < |r.messages| &&
             plan.input == Payload.PlannedInput(t.db.broadcast.template, plan.recipient, r.phone,
                                                r.messages[k].row.clientId, t.db.broadcast.startedBy.value,
                                                r.messages[k].row.retryOf);
    assert ValidRef(t.db, MessageRef(plan.recipient, k));
    assert MessageAt(t.db, MessageRef(plan.recipient, k)) == r.messages[k];
  }

  // ---- Absorbing outcomes ----

  /** A blocked recipient whose message was never handed over stays so for ever. */
  lemma AbandonedForEver(s: System, first: seq<Action>, rest: seq<Action>, i: nat)
    requires Initial(s) && i < |Run(s, first).db.recipients| && Abandoned(Run(s, first).db.recipients[i])
    ensures var t := Run(Run(s, first), rest);
            && i < |t.db.recipients| && Abandoned(t.db.recipients[i])
            && |t.db.recipients[i].messages| == |Run(s, first).db.recipients[i].messages|
            && forall c | 0 <= c < |t.calls| ::
                 t.calls[c].ref != MessageRef(i, |t.db.recipients[i].messages| - 1)
  {
    Reachable(s, first);
    var middle := Run(s, first);
    RunKeeps(middle, rest);
    var t := Run(middle, rest);
    assert StaysAbandoned(middle.db.recipients[i], t.db.recipients[i]);
    forall c | 0 <= c < |t.calls| ensures t.calls[c].ref != MessageRef(i, |t.db.recipients[i].messages| - 1) {
      assert GoodStart(t.db, t.calls[c]);
    }
  }

  /** Accepted, refused and unknown messages keep their dispatch state in every continuation. */
  lemma OutcomesAreFinal(s: System, first: seq<Action>, rest: seq<Action>, ref: MessageRef)
    requires Initial(s) && ValidRef(Run(s, first).db, ref)
    requires var d := MessageAt(Run(s, first).db, ref).dispatch; d.Accepted? || d.DefinitiveFailed? || d.Unknown?
    ensures var t := Run(Run(s, first), rest);
            ValidRef(t.db, ref) && MessageAt(t.db, ref).dispatch == MessageAt(Run(s, first).db, ref).dispatch
  {
    Reachable(s, first);
    RunKeeps(Run(s, first), rest);
    RefPersists(Run(s, first).db, Run(Run(s, first), rest).db, ref);
  }

  // ---- Completion ----

  /**
   A completed broadcast has no ready recipient, and one in progress only if it was blocked
   while its message was in flight and a delivery status of an earlier attempt re-projected it.
   */
  lemma CompletedIsIdle(s: System, actions: seq<Action>, i: nat)
    requires Initial(s) && Run(s, actions).db.broadcast.status.Completed? && i < |Run(s, actions).db.recipients|
    ensures var r := Run(s, actions).db.recipients[i];
            && !r.status.Ready?
            && (r.status.InProgress? ==>
                  r.reason.Some? && r.claimToken.None? && r.messages != [] && Latest(r).dispatch.InProgress?)
  {
    Reachable(s, actions);
    var t := Run(s, actions);
    assert RecipientInv(t.db.broadcast, i, t.db.recipients[i]);
  }

  lemma FirstCompletionFixed(s: System, first: seq<Action>, rest: seq<Action>)
    requires Initial(s) && Run(s, first).db.broadcast.firstCompletedAt.Some?
    ensures Run(Run(s, first), rest).db.broadcast.firstCompletedAt == Run(s, first).db.broadcast.firstCompletedAt
  {
    Reachable(s, first);
    RunKeeps(Run(s, first), rest);
  }

  // ---- The recipients of a broadcast ----

  /** One row per phone, whatever was selected. */
  lemma OneRecipientPerPhone(s: System, actions: seq<Action>)
    requires Initial(s)
    ensures PhonesDistinct(Run(s, actions).db.recipients)
  {
    Reachable(s, actions);
  }

  // ---- Consent, seen afterwards ----

  /** An opt-out recorded later but effective by then, and newer than every opt-in in force. */
  ghost predicate Overtaken(events: seq<Consent.Event>, key: Consent.Key, at: Time, known: nat) {
    exists i | known <= i < |events| ::
      Consent.Applies(events, key, at, i) && events[i].decision.OptOut?
      && forall j | Consent.Applies(events, key, at, j) && events[j].decision.OptIn? :: Consent.Newer(events, i, j)
  }

  /** The opt-in a dispatch relied on still stands afterwards unless a backdated opt-out overtook it. */
  lemma HindsightIff(events: seq<Consent.Event>, key: Consent.Key, at: Time, known: nat)
    requires known <= |events| && Consent.OptedIn(events[..known], key, at)
    ensures Consent.OptedIn(events, key, at) <==> !Overtaken(events, key, at, known)
  {
    var before := Consent.Current(events[..known], key, at).value;
    assert Consent.Applies(events, key, at, before);
    var current := Consent.Current(events, key, at).value;
    if !Consent.OptedIn(events, key, at) && current < known {
      assert Consent.Applies(events[..known], key, at, current);
      assert false;
    }
  }

  /** An external opt-out may be backdated, so the log can disagree with a call made in good faith. */
  lemma BackdatedOptOut()
    ensures var key := Consent.Key(1, "+5491155550000");
            var optIn := Consent.Event(1, key, Consent.OptIn, Consent.FaaCrm, None, 10, 10, 7);
            var optOut := Consent.Event(2, key, Consent.OptOut, Consent.ExternalFaa, Some("acta 12"), 14, 15, 7);
            var input :=
              Consent.EventInput(2, 1, Consent.OptOut, Consent.ExternalFaa, 14, Some(15), Some("acta 12"), 7);
            && Consent.EffectiveTime(input, 30) == Success(15) && Consent.EventOf(input, key.phone, 15) == optOut
            && Consent.OptedIn([optIn], key, 20)
            && !Consent.OptedIn([optIn, optOut], key, 20)
  {
    var key := Consent.Key(1, "+5491155550000");
    var optIn := Consent.Event(1, key, Consent.OptIn, Consent.FaaCrm, None, 10, 10, 7);
    var optOut := Consent.Event(2, key, Consent.OptOut, Consent.ExternalFaa, Some("acta 12"), 14, 15, 7);
    assert Consent.Applies([optIn], key, 20, 0);
    assert Consent.Applies([optIn, optOut], key, 20, 1);
    assert Consent.Newer([optIn, optOut], 1, 0);
  }
}
