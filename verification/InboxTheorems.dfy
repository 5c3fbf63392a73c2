/**
 What the inbox index means, column by column: which messages count as the last reply, which wait,
 and what the remaining counters of a conversation hold, in every run.
 */
module InboxTheorems {
  import opened Wrappers
  import opened Inbox

  // ---- The last reply ----

  /**
   The last reply is the greatest accepted time of the outbound messages that a person sent, that the
   provider accepted, and whose delivery state is known and not failed; there is none when none has one.
   */
  lemma LastReplyOverColumns(c: Conversation, actions: seq<Action>)
    requires Fresh(c)
    ensures var t := Run(c, actions);
            && (forall i | 0 <= i < |t.log|
                           && t.log[i].Outbound? && t.log[i].origin == Human && t.log[i].sender != None
                           && t.log[i].dispatch == Accepted && t.log[i].provider != None
                           && t.log[i].provider != Some(Failed) && t.log[i].acceptedAt.Some? ::
                  t.lastOutboundAt.Some? && t.log[i].acceptedAt.value <= t.lastOutboundAt.value)
            && (t.lastOutboundAt.Some? ==>
                  exists i | 0 <= i < |t.log| ::
                    && t.log[i].Outbound? && t.log[i].origin == Human && t.log[i].sender != None
                    && t.log[i].dispatch == Accepted && t.log[i].provider != None
                    && t.log[i].provider != Some(Failed) && t.log[i].acceptedAt == t.lastOutboundAt)
  {
    IndexAgreesWithLog(c, actions);
    var t := Run(c, actions);
    LastReplyIsLatest(t.log);
    forall i | 0 <= i < |t.log|
               && t.log[i].Outbound? && t.log[i].origin == Human && t.log[i].sender != None
               && t.log[i].dispatch == Accepted && t.log[i].provider != None
               && t.log[i].provider != Some(Failed) && t.log[i].acceptedAt.Some?
      ensures t.lastOutboundAt.Some? && t.log[i].acceptedAt.value <= t.lastOutboundAt.value
    {
      assert ReplyTime(t.log[i]) == t.log[i].acceptedAt;
    }
    if t.lastOutboundAt.Some? {
      var i :| 0 <= i < |t.log| && ReplyTime(t.log[i]) == LastReply(t.log);
      assert t.log[i].acceptedAt == t.lastOutboundAt;
    }
  }

  /** Written for the broadcast, or by nobody. */
  predicate Impersonal(m: Message) {
    m.Outbound? && (m.origin == Broadcast || m.sender == None)
  }

  /** The two steps that can turn a message into a reply. */
  predicate Settles(a: Action, id: MessageId) {
    (a.DoAccept? && a.id == id) || (a.DoStatus? && a.id == id)
  }

  /** Whatever happens to an impersonal message, the conversation waits as before. */
  lemma ImpersonalNeverAnswers(c: Conversation, actions: seq<Action>, a: Action, id: MessageId)
    requires Fresh(c) && Settles(a, id)
    requires id < |Run(c, actions).log| && Impersonal(Run(c, actions).log[id])
    ensures var before, after := Run(c, actions), Step(Run(c, actions), a);
            && after.waiting == before.waiting && after.waitingSince == before.waitingSince
            && after.lastOutboundAt == before.lastOutboundAt
            && id < |after.log| && Impersonal(after.log[id])
  {
    IndexAgreesWithLog(c, actions);
    var before, after := Run(c, actions), Step(Run(c, actions), a);
    StepAgrees(before, a);
    assert |after.log| == |before.log| && forall i | 0 <= i < |before.log| && i != id :: after.log[i] == before.log[i];
    SameIndex(before.log, after.log, before.handledThrough, LastReply(before.log));
  }

  // ---- Waiting ----

  /** The sender's time of an inbound message when it has one, else its arrival. */
  function SentAt(m: Message): Time
    requires m.Inbound?
  {
    match m.providerAt
    case Some(at) => at
    case None => m.createdAt
  }

  /**
   The conversation waits exactly when an inbound message after the marker was sent after the last
   reply or, once there is a marker, arrived after it; and since the earliest time of such a message.
   */
  lemma WaitingOverColumns(c: Conversation, actions: seq<Action>)
    requires Fresh(c)
    ensures var t := Run(c, actions);
            && (t.waiting <==> t.waitingSince.Some?)
            && (forall i | 0 <= i < |t.log| && t.log[i].Inbound? && PastMarker(t, i) && NotCovered(t, t.log[i]) ::
                  t.waitingSince.Some? && t.waitingSince.value <= SentAt(t.log[i]))
            && (t.waitingSince.Some? ==>
                  exists i | 0 <= i < |t.log| && t.log[i].Inbound? ::
                    PastMarker(t, i) && NotCovered(t, t.log[i]) && t.waitingSince.value == SentAt(t.log[i]))
  {
    IndexAgreesWithLog(c, actions);
    var t := Run(c, actions);
    WaitingIsEarliest(t.log, t.handledThrough, t.lastOutboundAt);
    if t.waitingSince.Some? {
      var i :| 0 <= i < |t.log| && WaitTime(t.log[i], i, t.handledThrough, t.lastOutboundAt) == t.waitingSince;
      assert t.log[i].Inbound? && t.waitingSince.value == SentAt(t.log[i]);
    }
  }

  predicate PastMarker(t: Conversation, i: MessageId) {
    t.handledThrough.None? || t.handledThrough.value < i
  }

  predicate NotCovered(t: Conversation, m: Message)
    requires m.Inbound?
  {
    || t.lastOutboundAt.None?
    || t.lastOutboundAt.value < SentAt(m)
    || (t.handledThrough.Some? && t.lastOutboundAt.value < m.createdAt)
  }

  // ---- The marker ----

  /** Handling marks the newest inbound message of a conversation that waits, and leaves any other alone. */
  lemma HandlingMarks(c: Conversation, actions: seq<Action>)
    requires Fresh(c)
    ensures var before, after := Run(c, actions), Step(Run(c, actions), DoHandle);
            && after.log == before.log && after.unread == before.unread && after.lastOutboundAt == before.lastOutboundAt
            && (!before.waiting ==> after == before)
            && (before.waiting ==>
                  && !after.waiting
                  && after.handledThrough.Some? && after.handledThrough.value < |after.log|
                  && after.log[after.handledThrough.value].Inbound?
                  && forall i | after.handledThrough.value < i < |after.log| :: !after.log[i].Inbound?)
  {
    HandlingEndsWaiting(c, actions);
    IndexAgreesWithLog(c, actions);
  }

  // ---- Counters ----

  function InboundCount(log: seq<Message>): nat {
    if log == [] then 0 else InboundCount(log[..|log| - 1]) + (if log[|log| - 1].Inbound? then 1 else 0)
  }

  lemma {:induction false} RewrittenCount(log: seq<Message>, id: MessageId, m: Message)
    requires id < |log| && log[id].Inbound? == m.Inbound?
    ensures InboundCount(log[id := m]) == InboundCount(log)
  {
    var last := |log| - 1;
    if id < last {
      assert log[id := m][..last] == log[..last][id := m];
      RewrittenCount(log[..last], id, m);
    } else {
      assert log[id := m][..last] == log[..last];
    }
  }

  lemma OneMoreCounted(log: seq<Message>, m: Message)
    ensures InboundCount(log + [m]) == InboundCount(log) + if m.Inbound? then 1 else 0
  {
    assert (log + [m])[..|log|] == log;
  }

  /** Steps only append to the log or rewrite an outbound message. */
  lemma StepCounts(c: Conversation, a: Action)
    ensures var t := Step(c, a);
            && InboundCount(t.log) >= InboundCount(c.log)
            && t.unread == if a == DoRead then 0 else c.unread + InboundCount(t.log) - InboundCount(c.log)
  {
    var t := Step(c, a);
    match a
    case DoReceive(m) => OneMoreCounted(c.log, m);
    case DoPrepare(origin, sender) => OneMoreCounted(c.log, t.log[|c.log|]);
    case DoStart(id) => if t != c { RewrittenCount(c.log, id, t.log[id]); }
    case DoAccept(id, _, _, _) => if t != c { RewrittenCount(c.log, id, t.log[id]); }
    case DoFail(id, _) => if t != c { RewrittenCount(c.log, id, t.log[id]); }
    case DoStatus(id, _) => if t.log != c.log { RewrittenCount(c.log, id, t.log[id]); }
    case _ =>
  }

  /** Unread are the inbound messages since the conversation was last read. */
  lemma {:induction false} UnreadSinceRead(c: Conversation, actions: seq<Action>)
    requires forall n | 0 <= n < |actions| :: actions[n] != DoRead
    ensures var t := Run(Step(c, DoRead), actions);
            InboundCount(t.log) >= InboundCount(c.log) && t.unread == InboundCount(t.log) - InboundCount(c.log)
  {
    if actions != [] {
      UnreadSinceRead(c, actions[..|actions| - 1]);
      StepCounts(Run(Step(c, DoRead), actions[..|actions| - 1]), actions[|actions| - 1]);
    }
  }

  // ---- Times ----

  /** `bound` is the greatest of the times of the log, none when there are none. */
  predicate Greatest(log: seq<Message>, time: Message -> Option<Time>, bound: Option<Time>) {
    && (forall i | 0 <= i < |log| && time(log[i]).Some? :: bound.Some? && time(log[i]).value <= bound.value)
    && (bound.Some? ==> exists i | 0 <= i < |log| :: time(log[i]) == bound)
  }

  const INBOUND_TIME: Message -> Option<Time> := (m: Message) => if m.Inbound? then m.providerAt else None
  const ANY_TIME: Message -> Option<Time> := (m: Message) => if m.Inbound? then m.providerAt else m.acceptedAt

  lemma GreatestAppended(log: seq<Message>, m: Message, time: Message -> Option<Time>, bound: Option<Time>)
    requires Greatest(log, time, bound)
    ensures Greatest(log + [m], time, Later(bound, time(m)))
  {
    var all := log + [m];
    assert all[|log|] == m;
    if Later(bound, time(m)) == bound && bound.Some? {
      var i :| 0 <= i < |log| && time(log[i]) == bound;
      assert all[i] == log[i];
    }
    forall i | 0 <= i < |all| && time(all[i]).Some?
      ensures Later(bound, time(m)).Some? && time(all[i]).value <= Later(bound, time(m)).value
    {
      if i < |log| {
        assert all[i] == log[i];
      }
    }
  }

  /** Rewriting a message that had no time. */
  lemma GreatestRewritten(log: seq<Message>, id: MessageId, m: Message, time: Message -> Option<Time>,
                          bound: Option<Time>)
    requires Greatest(log, time, bound) && id < |log| && (time(log[id]).None? || time(log[id]) == time(m))
    ensures Greatest(log[id := m], time, Later(bound, time(m)))
  {
    var all := log[id := m];
    assert all[id] == m;
    if Later(bound, time(m)) == bound && bound.Some? {
      var i :| 0 <= i < |log| && time(log[i]) == bound;
      assert time(all[i]) == bound;
    }
    forall i | 0 <= i < |all| && time(all[i]).Some?
      ensures Later(bound, time(m)).Some? && time(all[i]).value <= Later(bound, time(m)).value
    {
      if i != id {
        assert all[i] == log[i];
      }
    }
  }

  /** An outbound message has an accepted time only once it is accepted. */
  predicate AcceptedTimed(log: seq<Message>) {
    forall i | 0 <= i < |log| && log[i].Outbound? :: log[i].acceptedAt.Some? <==> log[i].dispatch == Accepted
  }

  predicate TimesKept(c: Conversation) {
    AcceptedTimed(c.log) && Greatest(c.log, INBOUND_TIME, c.lastInboundAt) && Greatest(c.log, ANY_TIME, c.lastMessageAt)
  }

  lemma Appended(c: Conversation, m: Message)
    requires TimesKept(c) && (m.Outbound? ==> m.acceptedAt.None? && m.dispatch != Accepted)
    ensures AcceptedTimed(c.log + [m])
    ensures Greatest(c.log + [m], INBOUND_TIME, Later(c.lastInboundAt, INBOUND_TIME(m)))
    ensures Greatest(c.log + [m], ANY_TIME, Later(c.lastMessageAt, ANY_TIME(m)))
  {
    GreatestAppended(c.log, m, INBOUND_TIME, c.lastInboundAt);
    GreatestAppended(c.log, m, ANY_TIME, c.lastMessageAt);
  }

  lemma Rewritten(c: Conversation, id: MessageId, m: Message)
    requires TimesKept(c) && id < |c.log| && c.log[id].Outbound? && m.Outbound?
    requires m.acceptedAt.Some? <==> m.dispatch == Accepted
    requires c.log[id].acceptedAt.None? || c.log[id].acceptedAt == m.acceptedAt
    ensures AcceptedTimed(c.log[id := m])
    ensures Greatest(c.log[id := m], INBOUND_TIME, c.lastInboundAt)
    ensures Greatest(c.log[id := m], ANY_TIME, Later(c.lastMessageAt, m.acceptedAt))
  {
    GreatestRewritten(c.log, id, m, INBOUND_TIME, c.lastInboundAt);
    GreatestRewritten(c.log, id, m, ANY_TIME, c.lastMessageAt);
  }

  lemma SameTime(c: Conversation, id: MessageId)
    requires TimesKept(c) && id < |c.log| && c.log[id].Outbound?
    ensures Later(c.lastMessageAt, c.log[id].acceptedAt) == c.lastMessageAt
  {
    assert ANY_TIME(c.log[id]) == c.log[id].acceptedAt;
  }

  lemma StepKeepsTimes(c: Conversation, a: Action)
    requires TimesKept(c)
    ensures TimesKept(Step(c, a))
  {
    var t := Step(c, a);
    match a
    case DoReceive(m) => if m.Inbound? { Appended(c, m); }
    case DoPrepare(origin, sender) => Appended(c, t.log[|c.log|]);
    case DoStart(id) => if t != c { Rewritten(c, id, t.log[id]); }
    case DoAccept(id, _, _, _) => if t != c { Rewritten(c, id, t.log[id]); }
    case DoFail(id, _) => if t != c { Rewritten(c, id, t.log[id]); }
    case DoStatus(id, state) =>
      if t != c {
        Rewritten(c, id, t.log[id]);
        SameTime(c, id);
      }
    case _ =>
  }

  /**
   In every run the last inbound time is the greatest provider time of an inbound message, and the last
   message time the greatest of those and of the accepted times.
   */
  lemma {:induction false} LastTimesAreGreatest(c: Conversation, actions: seq<Action>)
    requires Fresh(c) && c.lastInboundAt.None? && c.lastMessageAt.None?
    ensures TimesKept(Run(c, actions))
  {
    if actions != [] {
      LastTimesAreGreatest(c, actions[..|actions| - 1]);
      StepKeepsTimes(Run(c, actions[..|actions| - 1]), actions[|actions| - 1]);
    }
  }

  // ---- Redelivered messages ----

  /**
   A message whose external id is unknown is new; one that is known is a replay exactly when the first
   message with that id is inbound and has the same body and provider time, and is refused otherwise.
   */
  lemma ReceptionIff(log: seq<Message>, m: Message, id: MessageId)
    requires m.Inbound?
    ensures ReceptionOf(log, m) == New <==> forall i | 0 <= i < |log| :: ExternalId(log[i]) != Some(m.external)
    ensures id < |log| && ExternalId(log[id]) == Some(m.external)
            && (forall i | 0 <= i < id :: ExternalId(log[i]) != Some(m.external)) ==>
              (ReceptionOf(log, m) == Replayed <==>
                 log[id].Inbound? && log[id].body == m.body && log[id].providerAt == m.providerAt)
  {
  }

  // ---- The way of an outbound message ----

  /** What the columns of an outbound message say about the steps it went through. */
  predicate WentThrough(m: Message, id: MessageId, actions: seq<Action>) {
    m.Outbound? ==>
      && (m.dispatch != Pending ==> DoStart(id) in actions)
      && (m.dispatch == Accepted ==> exists n | 0 <= n < |actions| :: actions[n].DoAccept? && actions[n].id == id
                                       && m.externalId == Some(actions[n].external)
                                       && m.acceptedAt == Some(actions[n].at))
      && (m.dispatch == DefinitiveFailed ==> DoFail(id, false) in actions)
      && (m.dispatch == Unknown ==> DoFail(id, true) in actions)
      && (m.externalId.Some? <==> m.dispatch == Accepted)
      && (m.provider.Some? ==> m.dispatch == Accepted)
  }

  lemma MoreActions(m: Message, id: MessageId, actions: seq<Action>, a: Action)
    requires WentThrough(m, id, actions)
    ensures WentThrough(m, id, actions + [a])
  {
    if m.Outbound? && m.dispatch == Accepted {
      var n :| 0 <= n < |actions| && actions[n].DoAccept? && actions[n].id == id
               && m.externalId == Some(actions[n].external) && m.acceptedAt == Some(actions[n].at);
      assert (actions + [a])[n] == actions[n];
    }
  }

  lemma StepWentThrough(c: Conversation, actions: seq<Action>, a: Action)
    requires forall i | 0 <= i < |c.log| :: WentThrough(c.log[i], i, actions)
    ensures forall i | 0 <= i < |Step(c, a).log| :: WentThrough(Step(c, a).log[i], i, actions + [a])
  {
    var t := Step(c, a);
    forall i | 0 <= i < |t.log| ensures WentThrough(t.log[i], i, actions + [a]) {
      if i < |c.log| {
        MoreActions(c.log[i], i, actions, a);
        assert (actions + [a])[|actions|] == a;
      }
    }
  }

  /** In every run an outbound message is dispatched only by a start and settled only by the answer to it. */
  lemma {:induction false} MessagesWentThrough(c: Conversation, actions: seq<Action>)
    requires c.log == []
    ensures forall i | 0 <= i < |Run(c, actions).log| :: WentThrough(Run(c, actions).log[i], i, actions)
  {
    if actions != [] {
      var before := actions[..|actions| - 1];
      MessagesWentThrough(c, before);
      StepWentThrough(Run(c, before), before, actions[|actions| - 1]);
      assert before + [actions[|actions| - 1]] == actions;
    }
  }
}
