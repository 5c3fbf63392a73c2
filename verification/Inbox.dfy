/**
 The inbox index of one conversation: the fields that say whether it waits for a response, kept
 beside the message log and rebuilt from it by some steps but not by others.
 */
module Inbox {
  import opened Wrappers

  type Time = int
  type UserId = nat
  type MessageId = nat

  datatype Dispatch = Pending | InProgress | Accepted | DefinitiveFailed | Unknown

  datatype Provider = Received | Sent | Delivered | Read | Failed

  datatype Origin = Human | Broadcast

  /** A message id is its position in the log of the conversation. */
  datatype Message =
    | Inbound(external: string, body: string, providerAt: Option<Time>, createdAt: Time)
    | Outbound(origin: Origin, sender: Option<UserId>, dispatch: Dispatch, provider: Option<Provider>,
               acceptedAt: Option<Time>, externalId: Option<string>)

  datatype Conversation = Conversation(log: seq<Message>, handledThrough: Option<MessageId>, unread: nat,
                                       lastMessageAt: Option<Time>, lastInboundAt: Option<Time>,
                                       lastOutboundAt: Option<Time>, waiting: bool, waitingSince: Option<Time>)

  // ---- The definition, over all messages ----

  /** A valid reply: sent by a person, accepted, in a known delivery state other than failed. */
  predicate IsReply(m: Message) {
    m.Outbound? && m.origin.Human? && m.sender.Some? && m.dispatch.Accepted?
    && m.provider.Some? && !m.provider.value.Failed?
  }

  function Later(current: Option<Time>, candidate: Option<Time>): Option<Time> {
    if candidate.None? then current
    else if current.None? || candidate.value > current.value then candidate
    else current
  }

  function Earlier(current: Option<Time>, candidate: Option<Time>): Option<Time> {
    if candidate.None? then current
    else if current.None? || candidate.value < current.value then candidate
    else current
  }

  function ReplyTime(m: Message): Option<Time> {
    if IsReply(m) then m.acceptedAt else None
  }

  function LastReply(log: seq<Message>): Option<Time> {
    if log == [] then None else Later(LastReply(log[..|log| - 1]), ReplyTime(log[|log| - 1]))
  }

  function InboundTime(m: Message): Time
    requires m.Inbound?
  {
    if m.providerAt.Some? then m.providerAt.value else m.createdAt
  }

  /** An inbound message after the handled marker that no valid reply covers. */
  predicate Unanswered(m: Message, id: MessageId, handled: Option<MessageId>, reply: Option<Time>) {
    && m.Inbound?
    && (handled.Some? ==> id > handled.value)
    && (reply.Some? ==>
          || InboundTime(m) > reply.value
          || (handled.Some? && id > handled.value && m.createdAt > reply.value))
  }

  function WaitTime(m: Message, id: MessageId, handled: Option<MessageId>, reply: Option<Time>): Option<Time> {
    if Unanswered(m, id, handled, reply) then Some(InboundTime(m)) else None
  }

  function WaitingSince(log: seq<Message>, handled: Option<MessageId>, reply: Option<Time>): Option<Time> {
    if log == [] then None
    else
      var last := |log| - 1;
      Earlier(WaitingSince(log[..last], handled, reply), WaitTime(log[last], last, handled, reply))
  }

  function Recomputed(c: Conversation): Conversation {
    var reply := LastReply(c.log);
    var since := WaitingSince(c.log, c.handledThrough, reply);
    c.(lastOutboundAt := reply, waiting := since.Some?, waitingSince := since)
  }

  /** The stored fields are the ones the definition gives. */
  predicate Agrees(c: Conversation) {
    Recomputed(c) == c
  }

  /** The last reply is the latest of the accepted times of valid replies. */
  lemma {:induction false} LastReplyIsLatest(log: seq<Message>)
    ensures LastReply(log).None? <==> forall i | 0 <= i < |log| :: ReplyTime(log[i]).None?
    ensures LastReply(log).Some? ==>
              && (exists i | 0 <= i < |log| :: ReplyTime(log[i]) == LastReply(log))
              && forall i | 0 <= i < |log| && ReplyTime(log[i]).Some? :: ReplyTime(log[i]).value <= LastReply(log).value
  {
    if log != [] {
      var before := log[..|log| - 1];
      LastReplyIsLatest(before);
      assert forall i | 0 <= i < |before| :: before[i] == log[i];
      if LastReply(log) == LastReply(before) && LastReply(before).Some? {
        var i :| 0 <= i < |before| && ReplyTime(before[i]) == LastReply(before);
        assert ReplyTime(log[i]) == LastReply(log);
      }
    }
  }

  /** Waiting starts at the earliest unanswered message, if there is one. */
  lemma {:induction false} WaitingIsEarliest(log: seq<Message>, handled: Option<MessageId>, reply: Option<Time>)
    ensures var since := WaitingSince(log, handled, reply);
            && (since.None? <==> forall i | 0 <= i < |log| :: !Unanswered(log[i], i, handled, reply))
            && (since.Some? ==>
                  && (exists i | 0 <= i < |log| :: WaitTime(log[i], i, handled, reply) == since)
                  && forall i | 0 <= i < |log| && Unanswered(log[i], i, handled, reply) ::
                       since.value <= InboundTime(log[i]))
  {
    if log != [] {
      var before := log[..|log| - 1];
      WaitingIsEarliest(before, handled, reply);
      assert forall i | 0 <= i < |before| :: before[i] == log[i];
      var since := WaitingSince(log, handled, reply);
      if since == WaitingSince(before, handled, reply) && since.Some? {
        var i :| 0 <= i < |before| && WaitTime(before[i], i, handled, reply) == since;
        assert WaitTime(log[i], i, handled, reply) == since;
      }
    }
  }

  // ---- Steps ----

  /** The provider's id of a message; outbound messages get theirs when they are accepted. */
  function ExternalId(m: Message): Option<string> {
    if m.Inbound? then Some(m.external) else m.externalId
  }

  predicate Known(log: seq<Message>, external: string) {
    exists i | 0 <= i < |log| :: ExternalId(log[i]) == Some(external)
  }

  /** The first message with a provider id. */
  function FindExternal(log: seq<Message>, external: string): (found: Option<MessageId>)
    ensures found.Some? <==> Known(log, external)
    ensures found.Some? ==> found.value < |log| && ExternalId(log[found.value]) == Some(external)
    ensures found.Some? ==> forall i | 0 <= i < found.value :: ExternalId(log[i]) != Some(external)
  {
    if log == [] then None
    else
      var before := log[..|log| - 1];
      var earlier := FindExternal(before, external);
      assert forall i | 0 <= i < |before| :: before[i] == log[i];
      if earlier.Some? then earlier
      else if ExternalId(log[|log| - 1]) == Some(external) then Some(|log| - 1)
      else None
  }

  predicate SamePayload(m: Message, other: Message) {
    m.Inbound? && other.Inbound? && m.external == other.external && m.body == other.body
    && m.providerAt == other.providerAt
  }

  datatype Reception = New | Replayed | Refused

  /** A known id is a replay when the stored message is the same inbound message, and refused otherwise. */
  function ReceptionOf(log: seq<Message>, m: Message): Reception
    requires m.Inbound?
  {
    var existing := FindExternal(log, m.external);
    if existing.None? then New else if SamePayload(log[existing.value], m) then Replayed else Refused
  }

  /** A new inbound message is logged and the index rebuilt; a known one changes nothing. */
  function Receive(c: Conversation, m: Message): Conversation
    requires m.Inbound?
  {
    if Known(c.log, m.external) then c
    else Recomputed(c.(log := c.log + [m], unread := c.unread + 1,
                       lastMessageAt := Later(c.lastMessageAt, m.providerAt),
                       lastInboundAt := Later(c.lastInboundAt, m.providerAt)))
  }

  function MarkRead(c: Conversation): Conversation {
    c.(unread := 0)
  }

  function LatestInbound(log: seq<Message>): (id: Option<MessageId>)
    ensures id.Some? ==> id.value < |log| && log[id.value].Inbound?
    ensures id.Some? ==> forall i | id.value < i < |log| :: !log[i].Inbound?
    ensures id.None? ==> forall i | 0 <= i < |log| :: !log[i].Inbound?
  {
    if log == [] then None
    else if log[|log| - 1].Inbound? then Some(|log| - 1)
    else LatestInbound(log[..|log| - 1])
  }

  /** `None` is the internal error of a waiting conversation without inbound messages. */
  function MarkHandled(c: Conversation): Option<Conversation> {
    if !c.waiting then Some(c)
    else if LatestInbound(c.log).None? then None
    else Some(Recomputed(c.(handledThrough := LatestInbound(c.log))))
  }

  function Prepare(c: Conversation, origin: Origin, sender: UserId): Conversation {
    c.(log := c.log + [Outbound(origin, Some(sender), Pending, None, None, None)])
  }

  function Start(c: Conversation, id: MessageId): Conversation {
    if id < |c.log| && c.log[id].Outbound? && c.log[id].dispatch.Pending?
    then c.(log := c.log[id := c.log[id].(dispatch := InProgress)])
    else c
  }

  /** The provider accepted the message, with or without a first delivery state. */
  function ReconcileSuccess(c: Conversation, id: MessageId, external: string, at: Time, state: Option<Provider>)
    : Conversation
  {
    if id < |c.log| && c.log[id].Outbound? && c.log[id].dispatch.InProgress? then
      var m := c.log[id].(dispatch := Accepted, externalId := Some(external), acceptedAt := Some(at),
                          provider := state);
      Recomputed(c.(log := c.log[id := m], lastMessageAt := Later(c.lastMessageAt, Some(at))))
    else c
  }

  /** The provider refused it or did not say; the index is left as it is. */
  function ReconcileError(c: Conversation, id: MessageId, unknown: bool): Conversation {
    if id < |c.log| && c.log[id].Outbound? && c.log[id].dispatch.InProgress?
    then c.(log := c.log[id := c.log[id].(dispatch := if unknown then Unknown else DefinitiveFailed)])
    else c
  }

  function DeliveryStatus(c: Conversation, id: MessageId, state: Provider): Conversation {
    if id < |c.log| && c.log[id].Outbound? && c.log[id].externalId.Some?
    then Recomputed(c.(log := c.log[id := c.log[id].(provider := Some(state))]))
    else c
  }

  datatype Action =
    | DoReceive(message: Message)
    | DoRead
    | DoHandle
    | DoPrepare(origin: Origin, sender: UserId)
    | DoStart(id: MessageId)
    | DoAccept(id: MessageId, external: string, at: Time, state: Option<Provider>)
    | DoFail(id: MessageId, unknown: bool)
    | DoStatus(id: MessageId, provider: Provider)

  function Step(c: Conversation, a: Action): Conversation {
    match a
    case DoReceive(m) => if m.Inbound? then Receive(c, m) else c
    case DoRead => MarkRead(c)
    case DoHandle => if MarkHandled(c).Some? then MarkHandled(c).value else c
    case DoPrepare(origin, sender) => Prepare(c, origin, sender)
    case DoStart(id) => Start(c, id)
    case DoAccept(id, external, at, state) => ReconcileSuccess(c, id, external, at, state)
    case DoFail(id, unknown) => ReconcileError(c, id, unknown)
    case DoStatus(id, state) => DeliveryStatus(c, id, state)
  }

  function Run(c: Conversation, actions: seq<Action>): Conversation {
    if actions == [] then c else Step(Run(c, actions[..|actions| - 1]), actions[|actions| - 1])
  }

  predicate Fresh(c: Conversation) {
    c.log == [] && c.handledThrough.None? && c.lastOutboundAt.None? && !c.waiting && c.waitingSince.None?
  }

  // ---- The index agrees with the log ----

  /** The log is the same for the index: no reply and no inbound message appears or goes. */
  predicate SameEvidence(m: Message, n: Message) {
    ReplyTime(m) == ReplyTime(n) && m.Inbound? == n.Inbound? && (m.Inbound? ==> m == n)
  }

  lemma {:induction false} SameIndex(a: seq<Message>, b: seq<Message>, handled: Option<MessageId>, reply: Option<Time>)
    requires |a| == |b| && forall i | 0 <= i < |a| :: SameEvidence(a[i], b[i])
    ensures LastReply(a) == LastReply(b) && WaitingSince(a, handled, reply) == WaitingSince(b, handled, reply)
  {
    if a != [] {
      SameIndex(a[..|a| - 1], b[..|b| - 1], handled, reply);
    }
  }

  lemma PrepareAgrees(c: Conversation, origin: Origin, sender: UserId)
    requires Agrees(c)
    ensures Agrees(Prepare(c, origin, sender))
  {
    assert Prepare(c, origin, sender).log[..|c.log|] == c.log;
  }

  /** A change of one message that is no evidence for the index. */
  lemma RewriteAgrees(c: Conversation, id: MessageId, m: Message)
    requires Agrees(c) && id < |c.log| && SameEvidence(c.log[id], m)
    ensures Agrees(c.(log := c.log[id := m]))
  {
    SameIndex(c.log, c.log[id := m], c.handledThrough, LastReply(c.log));
  }

  lemma StartAgrees(c: Conversation, id: MessageId)
    requires Agrees(c)
    ensures Agrees(Start(c, id))
  {
    if Start(c, id) != c {
      RewriteAgrees(c, id, c.log[id].(dispatch := InProgress));
    }
  }

  lemma ErrorAgrees(c: Conversation, id: MessageId, unknown: bool)
    requires Agrees(c)
    ensures Agrees(ReconcileError(c, id, unknown))
  {
    if ReconcileError(c, id, unknown) != c {
      RewriteAgrees(c, id, c.log[id].(dispatch := if unknown then Unknown else DefinitiveFailed));
    }
  }

  /** Also the steps that do not rebuild the index leave it right. */
  lemma StepAgrees(c: Conversation, a: Action)
    requires Agrees(c)
    ensures Agrees(Step(c, a))
  {
    match a
    case DoPrepare(origin, sender) => PrepareAgrees(c, origin, sender);
    case DoStart(id) => StartAgrees(c, id);
    case DoFail(id, unknown) => ErrorAgrees(c, id, unknown);
    case _ =>
  }

  lemma {:induction false} IndexAgreesWithLog(c: Conversation, actions: seq<Action>)
    requires Fresh(c)
    ensures Agrees(Run(c, actions))
  {
    if actions != [] {
      IndexAgreesWithLog(c, actions[..|actions| - 1]);
      StepAgrees(Run(c, actions[..|actions| - 1]), actions[|actions| - 1]);
    }
  }

  /** Handling a waiting conversation always finds an inbound message, and ends the waiting. */
  lemma HandlingEndsWaiting(c: Conversation, actions: seq<Action>)
    requires Fresh(c)
    ensures MarkHandled(Run(c, actions)).Some? && !MarkHandled(Run(c, actions)).value.waiting
  {
    IndexAgreesWithLog(c, actions);
    var t := Run(c, actions);
    if t.waiting {
      WaitingIsEarliest(t.log, t.handledThrough, LastReply(t.log));
      var marker := LatestInbound(t.log);
      WaitingIsEarliest(t.log, marker, LastReply(t.log));
    }
  }

  // ---- What a new inbound message does ----

  predicate MarkerWithin(c: Conversation) {
    c.handledThrough.Some? ==> c.handledThrough.value < |c.log|
  }

  lemma StepKeepsMarker(c: Conversation, a: Action)
    requires MarkerWithin(c)
    ensures MarkerWithin(Step(c, a))
  {
  }

  /** The marker never lies beyond the log. */
  lemma {:induction false} MarkerInLog(c: Conversation, actions: seq<Action>)
    requires Fresh(c)
    ensures MarkerWithin(Run(c, actions))
  {
    if actions != [] {
      MarkerInLog(c, actions[..|actions| - 1]);
      StepKeepsMarker(Run(c, actions[..|actions| - 1]), actions[|actions| - 1]);
    }
  }

  /**
   A new inbound message waits when nothing has been answered since, by its own time or, once
   handled, by its arrival.
   */
  predicate WillWait(c: Conversation, m: Message)
    requires m.Inbound?
  {
    || c.lastOutboundAt.None?
    || InboundTime(m) > c.lastOutboundAt.value
    || (c.handledThrough.Some? && m.createdAt > c.lastOutboundAt.value)
  }

  lemma InboundWaitsIff(c: Conversation, actions: seq<Action>, m: Message)
    requires Fresh(c) && m.Inbound? && !Known(Run(c, actions).log, m.external)
    ensures var before := Run(c, actions);
            var after := Receive(before, m);
            && (after.waiting <==> before.waiting || WillWait(before, m))
            && after.lastOutboundAt == before.lastOutboundAt
            && after.waitingSince
               == Earlier(before.waitingSince, if WillWait(before, m) then Some(InboundTime(m)) else None)
  {
    IndexAgreesWithLog(c, actions);
    MarkerInLog(c, actions);
    var before := Run(c, actions);
    assert (before.log + [m])[..|before.log|] == before.log;
  }

  /** After handling, a new inbound message makes the conversation wait exactly when it will wait itself. */
  lemma NewInboundAfterHandling(c: Conversation, actions: seq<Action>, m: Message)
    requires Fresh(c) && m.Inbound? && !Known(Run(c, actions).log, m.external)
    ensures MarkHandled(Run(c, actions)).Some?
    ensures var handled := MarkHandled(Run(c, actions)).value;
            Receive(handled, m).waiting <==> WillWait(handled, m)
  {
    HandlingEndsWaiting(c, actions);
    var extended := actions + [DoHandle];
    assert extended[..|extended| - 1] == actions;
    InboundWaitsIff(c, extended, m);
  }

  // ---- A new message that does not wait ----

  const NOTHING: Conversation := Conversation([], None, 0, None, None, None, false, None)
  const QUESTION: Message := Inbound("wamid.in.1", "Hola", Some(10), 10)
  const REPLY: Message := Outbound(Human, Some(7), Accepted, Some(Sent), Some(100), Some("wamid.out.1"))
  const SECOND_QUESTION: Message := Inbound("wamid.in.2", "Y el precio?", Some(150), 40)
  const AFTER_HANDLING: Message := Inbound("wamid.in.3", "Gracias", Some(60), 60)

  /** A reply accepted by a provider whose clock runs ahead, then handling, then a new message. */
  const ACTIONS: seq<Action> :=
    [DoReceive(QUESTION), DoPrepare(Human, 7), DoStart(1), DoAccept(1, "wamid.out.1", 100, Some(Sent)),
     DoReceive(SECOND_QUESTION), DoHandle]

  lemma {:induction false} RunAppend(c: Conversation, actions: seq<Action>, a: Action)
    ensures Run(c, actions + [a]) == Step(Run(c, actions), a)
  {
    assert (actions + [a])[..|actions + [a]| - 1] == actions;
  }

  /** The run one action further. */
  lemma RunNext(n: nat)
    requires n < |ACTIONS|
    ensures Run(NOTHING, ACTIONS[..n + 1]) == Step(Run(NOTHING, ACTIONS[..n]), ACTIONS[n])
  {
    assert ACTIONS[..n] + [ACTIONS[n]] == ACTIONS[..n + 1];
    RunAppend(NOTHING, ACTIONS[..n], ACTIONS[n]);
  }

  const STARTED: Message := Outbound(Human, Some(7), InProgress, None, None, None)

  lemma Asked() returns (c: Conversation)
    ensures c == Run(NOTHING, ACTIONS[..3])
    ensures c.log == [QUESTION, STARTED] && c.handledThrough.None?
  {
    assert ACTIONS[..0] == [] && Run(NOTHING, []) == NOTHING;
    RunNext(0);
    RunNext(1);
    RunNext(2);
    var received := Receive(NOTHING, QUESTION);
    var prepared := Prepare(received, Human, 7);
    c := Start(prepared, 1);
    assert c.log == [QUESTION, STARTED];
  }

  lemma Answered() returns (c: Conversation)
    ensures c == Run(NOTHING, ACTIONS[..4])
    ensures c.log == [QUESTION, REPLY] && c.handledThrough.None? && c.lastOutboundAt == Some(100) && !c.waiting
            && Agrees(c)
  {
    var started := Asked();
    RunNext(3);
    c := ReconcileSuccess(started, 1, "wamid.out.1", 100, Some(Sent));
    assert c.log == [QUESTION, REPLY];
    LastReplyIsLatest(c.log);
    WaitingIsEarliest(c.log, None, Some(100));
  }

  lemma Handled() returns (c: Conversation)
    ensures c == Run(NOTHING, ACTIONS)
    ensures c.log == [QUESTION, REPLY, SECOND_QUESTION] && c.handledThrough == Some(2) && c.lastOutboundAt == Some(100)
    ensures Run(NOTHING, ACTIONS[..5]).waiting
  {
    var answered := Answered();
    assert ExternalId(answered.log[0]) == Some("wamid.in.1") && ExternalId(answered.log[1]) == Some("wamid.out.1");
    assert |"wamid.in.2"| == 10 && "wamid.in.2"[9] == '2' && "wamid.in.1"[9] == '1' && |"wamid.out.1"| == 11;
    var received := Receive(answered, SECOND_QUESTION);
    RunNext(4);
    RunNext(5);
    assert ACTIONS[..6] == ACTIONS;
    assert received.log == [QUESTION, REPLY, SECOND_QUESTION];
    assert received.log[..2] == answered.log;
    assert LastReply(received.log) == Some(100);
    assert Unanswered(SECOND_QUESTION, 2, None, Some(100));
    c := MarkHandled(received).value;
  }

  /**
   A run in which the message after handling does not make the conversation wait: the reply's time
   is ahead of both its own time and its arrival.
   */
  lemma NewInboundNeedNotWait()
    ensures Fresh(NOTHING) && Run(NOTHING, ACTIONS[..5]).waiting
    ensures var handled := Run(NOTHING, ACTIONS);
            && handled.handledThrough.Some? && !handled.waiting && !Known(handled.log, AFTER_HANDLING.external)
            && Receive(handled, AFTER_HANDLING).log == handled.log + [AFTER_HANDLING]
            && !Receive(handled, AFTER_HANDLING).waiting
  {
    var handled := Handled();
    assert |"wamid.in.3"| == 10 && "wamid.in.3"[9] == '3' && "wamid.in.1"[9] == '1' && "wamid.in.2"[9] == '2'
           && |"wamid.out.1"| == 11;
    forall i | 0 <= i < |handled.log| ensures ExternalId(handled.log[i]) != Some(AFTER_HANDLING.external) {
      assert i == 0 || i == 1 || i == 2;
    }
    IndexAgreesWithLog(NOTHING, ACTIONS);
    WaitingIsEarliest(handled.log, Some(2), Some(100));
    InboundWaitsIff(NOTHING, ACTIONS, AFTER_HANDLING);
  }

  /** A message sent before the last reply but delivered late waits only if the conversation was once handled. */
  lemma LateInbound(c: Conversation, m: Message)
    requires m.Inbound? && c.lastOutboundAt.Some? && InboundTime(m) <= c.lastOutboundAt.value < m.createdAt
    ensures WillWait(c, m) <==> c.handledThrough.Some?
  {
  }

  // ---- Replies ----

  /** An accepted reply without a delivery state does not count: the conversation waits as before. */
  lemma AcceptedWithoutStateIsNoReply(c: Conversation, actions: seq<Action>, id: MessageId, external: string, at: Time)
    requires Fresh(c)
    ensures var before := Run(c, actions);
            var after := ReconcileSuccess(before, id, external, at, None);
            && after.waiting == before.waiting && after.waitingSince == before.waitingSince
            && after.lastOutboundAt == before.lastOutboundAt
  {
    IndexAgreesWithLog(c, actions);
    var before := Run(c, actions);
    var after := ReconcileSuccess(before, id, external, at, None);
    SameIndex(before.log, after.log, before.handledThrough, LastReply(before.log));
  }

  /**
   A reply accepted with a delivery state answers every inbound message up to its time, unless the
   marker reopened it.
   */
  lemma ReplyAnswers(c: Conversation, actions: seq<Action>, id: MessageId, external: string, at: Time, state: Provider)
    requires Fresh(c) && !state.Failed?
    requires var before := Run(c, actions);
             id < |before.log| && before.log[id].Outbound? && before.log[id].dispatch.InProgress?
             && before.log[id].origin.Human? && before.log[id].sender.Some?
    ensures var after := ReconcileSuccess(Run(c, actions), id, external, at, Some(state));
            && after.lastOutboundAt.Some? && at <= after.lastOutboundAt.value
            && forall i | 0 <= i < |after.log| && after.log[i].Inbound? && InboundTime(after.log[i]) <= at ::
                 Unanswered(after.log[i], i, after.handledThrough, after.lastOutboundAt)
                 ==> after.handledThrough.Some? && i > after.handledThrough.value && after.log[i].createdAt > at
  {
    var after := ReconcileSuccess(Run(c, actions), id, external, at, Some(state));
    assert ReplyTime(after.log[id]) == Some(at);
    LastReplyIsLatest(after.log);
  }

  /** A reply that turns out to have failed no longer answers anything. */
  lemma FailedReplyReopens(c: Conversation, actions: seq<Action>, id: MessageId)
    requires Fresh(c)
    ensures var before := Run(c, actions);
            var after := DeliveryStatus(before, id, Failed);
            id < |before.log| && IsReply(before.log[id]) && before.log[id].externalId.Some? ==>
              (after.lastOutboundAt.Some? ==>
                 exists i | 0 <= i < |after.log| :: i != id && ReplyTime(after.log[i]) == after.lastOutboundAt)
  {
    var after := DeliveryStatus(Run(c, actions), id, Failed);
    LastReplyIsLatest(after.log);
  }

  // ---- Order of arrival ----

  lemma PositionOf(a: seq<Message>, b: seq<Message>, i: nat) returns (j: nat)
    requires multiset(a) == multiset(b) && i < |a|
    ensures j < |b| && b[j] == a[i]
  {
    assert a[i] in multiset(a);
    assert a[i] in multiset(b);
    assert a[i] in b;
    j :| 0 <= j < |b| && b[j] == a[i];
  }

  lemma RepliesNoLater(a: seq<Message>, b: seq<Message>)
    requires multiset(a) == multiset(b)
    ensures LastReply(a).Some? ==> LastReply(b).Some? && LastReply(a).value <= LastReply(b).value
  {
    LastReplyIsLatest(a);
    LastReplyIsLatest(b);
    if LastReply(a).Some? {
      var i :| 0 <= i < |a| && ReplyTime(a[i]) == LastReply(a);
      var j := PositionOf(a, b, i);
      assert ReplyTime(b[j]) == LastReply(a);
    }
  }

  lemma SameReplies(a: seq<Message>, b: seq<Message>)
    requires multiset(a) == multiset(b)
    ensures LastReply(a) == LastReply(b)
  {
    RepliesNoLater(a, b);
    RepliesNoLater(b, a);
  }

  /** With no handled marker the index depends on the messages only, not on their order. */
  lemma OrderDoesNotMatter(a: Conversation, b: Conversation)
    requires Agrees(a) && Agrees(b) && a.handledThrough.None? && b.handledThrough.None?
    requires multiset(a.log) == multiset(b.log)
    ensures a.lastOutboundAt == b.lastOutboundAt && a.waiting == b.waiting && a.waitingSince == b.waitingSince
  {
    SameReplies(a.log, b.log);
    SameWaiting(a.log, b.log, LastReply(a.log));
  }

  lemma SameWaiting(a: seq<Message>, b: seq<Message>, reply: Option<Time>)
    requires multiset(a) == multiset(b)
    ensures WaitingSince(a, None, reply) == WaitingSince(b, None, reply)
  {
    WaitsNoEarlier(a, b, reply);
    WaitsNoEarlier(b, a, reply);
  }

  lemma WaitsNoEarlier(a: seq<Message>, b: seq<Message>, reply: Option<Time>)
    requires multiset(a) == multiset(b)
    ensures WaitingSince(a, None, reply).Some? ==>
              WaitingSince(b, None, reply).Some?
              && WaitingSince(b, None, reply).value <= WaitingSince(a, None, reply).value
  {
    WaitingIsEarliest(a, None, reply);
    WaitingIsEarliest(b, None, reply);
    if WaitingSince(a, None, reply).Some? {
      var i :| 0 <= i < |a| && WaitTime(a[i], i, None, reply) == WaitingSince(a, None, reply);
      var j := PositionOf(a, b, i);
      assert Unanswered(b[j], j, None, reply);
    }
  }

  predicate AllInbound(ms: seq<Message>) {
    forall i | 0 <= i < |ms| :: ms[i].Inbound?
  }

  function ReceiveAll(c: Conversation, ms: seq<Message>): Conversation
    requires AllInbound(ms)
  {
    if ms == [] then c else Receive(ReceiveAll(c, ms[..|ms| - 1]), ms[|ms| - 1])
  }

  predicate AllNew(log: seq<Message>, ms: seq<Message>) {
    && (forall i | 0 <= i < |ms| :: ms[i].Inbound? && !Known(log, ms[i].external))
    && (forall i, j | 0 <= i < j < |ms| :: ms[i].external != ms[j].external)
  }

  lemma ReceiveNew(c: Conversation, m: Message)
    requires m.Inbound? && !Known(c.log, m.external)
    ensures var after := Receive(c, m);
            after.log == c.log + [m] && Agrees(after) && after.handledThrough == c.handledThrough
            && after.unread == c.unread + 1
  {
  }

  lemma StillUnknown(log: seq<Message>, ms: seq<Message>)
    requires ms != [] && AllNew(log, ms)
    ensures !Known(log + ms[..|ms| - 1], ms[|ms| - 1].external)
    ensures AllNew(log, ms[..|ms| - 1])
  {
  }

  lemma {:induction false} ReceivedLog(c: Conversation, ms: seq<Message>)
    requires Agrees(c) && AllInbound(ms) && AllNew(c.log, ms)
    ensures var after := ReceiveAll(c, ms);
            after.log == c.log + ms && Agrees(after) && after.handledThrough == c.handledThrough
            && after.unread == c.unread + |ms|
  {
    if ms != [] {
      var before := ms[..|ms| - 1];
      var last := ms[|ms| - 1];
      StillUnknown(c.log, ms);
      ReceivedLog(c, before);
      ReceivedLast(c, ReceiveAll(c, before), ms);
    }
  }

  lemma ReceivedLast(c: Conversation, prior: Conversation, ms: seq<Message>)
    requires ms != [] && AllInbound(ms) && Agrees(prior) && prior.handledThrough == c.handledThrough
    requires prior.log == c.log + ms[..|ms| - 1] && prior.unread == c.unread + |ms| - 1
    requires !Known(prior.log, ms[|ms| - 1].external)
    ensures var after := Receive(prior, ms[|ms| - 1]);
            after.log == c.log + ms && Agrees(after) && after.handledThrough == c.handledThrough
            && after.unread == c.unread + |ms|
  {
    ReceiveNew(prior, ms[|ms| - 1]);
    assert c.log + ms[..|ms| - 1] + [ms[|ms| - 1]] == c.log + ms;
  }

  /** The same new inbound messages give the same index in whatever order they arrive. */
  lemma ArrivalOrderDoesNotMatter(c: Conversation, ms: seq<Message>, ns: seq<Message>)
    requires Agrees(c) && c.handledThrough.None?
    requires AllInbound(ms) && AllInbound(ns) && AllNew(c.log, ms) && AllNew(c.log, ns)
    requires multiset(ms) == multiset(ns)
    ensures var a := ReceiveAll(c, ms);
            var b := ReceiveAll(c, ns);
            a.lastOutboundAt == b.lastOutboundAt && a.waiting == b.waiting && a.waitingSince == b.waitingSince
            && a.unread == b.unread
  {
    ReceivedLog(c, ms);
    ReceivedLog(c, ns);
    assert multiset(c.log + ms) == multiset(c.log + ns);
    assert |multiset(ms)| == |ms| && |multiset(ns)| == |ns|;
    OrderDoesNotMatter(ReceiveAll(c, ms), ReceiveAll(c, ns));
  }
}
