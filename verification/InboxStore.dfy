/** The conversation row as the services update it, proved against the steps on values. */
module InboxStore {
  import opened Wrappers
  import opened Inbox

  class ConversationRow {
    var log: seq<Message>
    var handledThrough: Option<MessageId>
    var unread: nat
    var lastMessageAt: Option<Time>
    var lastInboundAt: Option<Time>
    var lastOutboundAt: Option<Time>
    var waiting: bool
    var waitingSince: Option<Time>

    /** The index agrees with the log, and the marker is in it; no method may leave it otherwise. */
    ghost predicate Valid()
      reads this
    {
      Agrees(Value()) && MarkerWithin(Value())
    }

    ghost function Value(): Conversation
      reads this
    {
      Conversation(log, handledThrough, unread, lastMessageAt, lastInboundAt, lastOutboundAt, waiting, waitingSince)
    }

    constructor ()
      ensures Valid() && Fresh(Value())
    {
      log, handledThrough, unread := [], None, 0;
      lastMessageAt, lastInboundAt, lastOutboundAt := None, None, None;
      waiting, waitingSince := false, None;
    }

    /** The latest valid reply first, then the earliest inbound message it leaves unanswered. */
    method Recompute()
      modifies this`lastOutboundAt, this`waiting, this`waitingSince
      ensures Value() == Recomputed(old(Value()))
    {
      var reply: Option<Time> := None;
      for i := 0 to |log|
        invariant reply == LastReply(log[..i])
      {
        assert log[..i + 1][..i] == log[..i];
        if IsReply(log[i]) {
          reply := Later(reply, log[i].acceptedAt);
        }
      }
      assert log[..|log|] == log;
      lastOutboundAt := reply;
      var since: Option<Time> := None;
      for i := 0 to |log|
        invariant since == WaitingSince(log[..i], handledThrough, reply)
      {
        assert log[..i + 1][..i] == log[..i];
        if Unanswered(log[i], i, handledThrough, reply) {
          since := Earlier(since, Some(InboundTime(log[i])));
        }
      }
      waiting := since.Some?;
      waitingSince := since;
    }

    method FindKnown(external: string) returns (found: Option<MessageId>)
      ensures found == FindExternal(log, external)
    {
      found := None;
      for i := 0 to |log|
        invariant found == FindExternal(log[..i], external)
      {
        assert log[..i + 1][..i] == log[..i];
        if found.None? && ExternalId(log[i]) == Some(external) {
          found := Some(i);
        }
      }
      assert log[..|log|] == log;
    }

    /** Answers whether the message is new, a replay of the stored one, or refused. */
    method ReceiveMessage(m: Message) returns (reception: Reception)
      requires Valid() && m.Inbound?
      modifies this
      ensures Valid() && Value() == Receive(old(Value()), m)
      ensures reception == ReceptionOf(old(log), m)
    {
      var existing := FindKnown(m.external);
      if existing.Some? {
        return if SamePayload(log[existing.value], m) then Replayed else Refused;
      }
      log := log + [m];
      lastMessageAt := Later(lastMessageAt, m.providerAt);
      lastInboundAt := Later(lastInboundAt, m.providerAt);
      unread := unread + 1;
      Recompute();
      return New;
    }

    /** The index stays right although it is not rebuilt. */
    method MarkAsRead()
      requires Valid()
      modifies this`unread
      ensures Valid() && Value() == MarkRead(old(Value()))
    {
      unread := 0;
    }

    /** A conversation that waits always has an inbound message to mark, and stops waiting. */
    method MarkAsHandled()
      requires Valid()
      modifies this
      ensures Valid() && !waiting
      ensures MarkHandled(old(Value())) == Some(Value())
    {
      if !waiting {
        return;
      }
      var latest := FindLatestInbound();
      WaitingIsEarliest(log, handledThrough, LastReply(log));
      WaitingIsEarliest(log, latest, LastReply(log));
      handledThrough := latest;
      Recompute();
    }

    method FindLatestInbound() returns (latest: Option<MessageId>)
      ensures latest == LatestInbound(log)
    {
      latest := None;
      for i := 0 to |log|
        invariant latest == LatestInbound(log[..i])
      {
        assert log[..i + 1][..i] == log[..i];
        if log[i].Inbound? {
          latest := Some(i);
        }
      }
      assert log[..|log|] == log;
    }

    /** A pending message is no reply yet, so the index stays right. */
    method PrepareOutbound(origin: Origin, sender: UserId) returns (id: MessageId)
      requires Valid()
      modifies this`log
      ensures Valid() && Value() == Prepare(old(Value()), origin, sender) && id == |old(log)|
    {
      id := |log|;
      PrepareAgrees(Value(), origin, sender);
      log := log + [Outbound(origin, Some(sender), Pending, None, None, None)];
    }

    /** Neither is one in progress. */
    method StartDispatch(id: MessageId)
      requires Valid()
      modifies this`log
      ensures Valid() && Value() == Start(old(Value()), id)
    {
      StartAgrees(Value(), id);
      if id < |log| && log[id].Outbound? && log[id].dispatch.Pending? {
        log := log[id := log[id].(dispatch := InProgress)];
      }
    }

    method Accept(id: MessageId, external: string, at: Time, state: Option<Provider>)
      requires Valid()
      modifies this
      ensures Valid() && Value() == ReconcileSuccess(old(Value()), id, external, at, state)
    {
      if id < |log| && log[id].Outbound? && log[id].dispatch.InProgress? {
        log := log[id := log[id].(dispatch := Accepted, externalId := Some(external), acceptedAt := Some(at),
                                  provider := state)];
        lastMessageAt := Later(lastMessageAt, Some(at));
        Recompute();
      }
    }

    /** A refused or unknown message never was a reply: the index stays right although it is not rebuilt. */
    method Fail(id: MessageId, unknown: bool)
      requires Valid()
      modifies this`log
      ensures Valid() && Value() == ReconcileError(old(Value()), id, unknown)
    {
      ErrorAgrees(Value(), id, unknown);
      if id < |log| && log[id].Outbound? && log[id].dispatch.InProgress? {
        log := log[id := log[id].(dispatch := if unknown then Unknown else DefinitiveFailed)];
      }
    }

    method ApplyStatus(id: MessageId, state: Provider)
      requires Valid()
      modifies this
      ensures Valid() && Value() == DeliveryStatus(old(Value()), id, state)
    {
      if id < |log| && log[id].Outbound? && log[id].externalId.Some? {
        log := log[id := log[id].(provider := Some(state))];
        Recompute();
      }
    }
  }
}
