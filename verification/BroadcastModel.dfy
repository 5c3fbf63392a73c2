/**
 Rows of one broadcast and the operations that touch a single recipient.

 A recipient carries its messages in id order, so a message is named by its recipient and its
 rank among that recipient's messages; `retryOf` names the predecessor by rank.
 */
module BroadcastModel {
  import opened Wrappers
  import Consent
  import Payload

  type Uuid = Payload.Uuid
  type UserId = Payload.UserId
  type CustomerId = Consent.CustomerId
  type Phone = Consent.Phone
  type Time = Consent.Time
  type RecipientId = nat

  datatype DispatchState = Pending | InProgress | Accepted | DefinitiveFailed | Unknown

  datatype ProviderState = Received | Sent | Delivered | Read | Failed

  datatype RecipientStatus = Draft | Ready | InProgress | Accepted | Sent | Delivered | Read
                           | Failed | Unknown | Blocked

  datatype BroadcastStatus = Draft | Confirmed | Processing | Completed

  datatype BlockReason = AttemptAlreadyExists | TemplateUnavailable | ConsentOrPhoneChanged

  /** Delivery evidence: on a message, its own; on a recipient, the latest over its messages. */
  datatype Evidence = Evidence(acceptedAt: Option<Time>, sentAt: Option<Time>, deliveredAt: Option<Time>,
                               readAt: Option<Time>, failedAt: Option<Time>)

  const NO_EVIDENCE := Evidence(None, None, None, None, None)

  datatype Message = Message(row: Payload.Row, createdAt: Time, dispatch: DispatchState,
                             provider: Option<ProviderState>, externalId: Option<string>, evidence: Evidence)

  datatype Recipient = Recipient(customer: CustomerId, phone: Phone, consentEvent: Option<nat>,
                                 status: RecipientStatus, reason: Option<BlockReason>,
                                 conversation: Option<Phone>, claimToken: Option<Uuid>, claimedAt: Option<Time>,
                                 firstAttemptAt: Option<Time>, latestAttemptAt: Option<Time>,
                                 evidence: Evidence, messages: seq<Message>)

  datatype MessageRef = MessageRef(recipient: RecipientId, rank: nat)

  function Latest(r: Recipient): Message
    requires r.messages != []
  {
    r.messages[|r.messages| - 1]
  }

  // ---- The recipient projection ----

  function Later(current: Option<Time>, candidate: Option<Time>): Option<Time> {
    if candidate.None? then current
    else if current.None? || candidate.value > current.value then candidate
    else current
  }

  function LaterEvidence(a: Evidence, b: Evidence): Evidence {
    Evidence(Later(a.acceptedAt, b.acceptedAt), Later(a.sentAt, b.sentAt), Later(a.deliveredAt, b.deliveredAt),
             Later(a.readAt, b.readAt), Later(a.failedAt, b.failedAt))
  }

  function LatestEvidence(messages: seq<Message>): Evidence {
    if messages == [] then NO_EVIDENCE
    else LaterEvidence(LatestEvidence(messages[..|messages| - 1]), messages[|messages| - 1].evidence)
  }

  function StatusOf(claimToken: Option<Uuid>, m: Message): RecipientStatus {
    if m.provider == Some(ProviderState.Read) then RecipientStatus.Read
    else if m.provider == Some(ProviderState.Delivered) then RecipientStatus.Delivered
    else if m.provider == Some(ProviderState.Sent) then RecipientStatus.Sent
    else if m.provider == Some(ProviderState.Failed) then RecipientStatus.Failed
    else if m.dispatch.Unknown? then RecipientStatus.Unknown
    else if m.dispatch.DefinitiveFailed? then RecipientStatus.Failed
    else if m.dispatch.Accepted? then RecipientStatus.Accepted
    else if m.dispatch.Pending? && claimToken.None? then RecipientStatus.Ready
    else RecipientStatus.InProgress
  }

  function Project(r: Recipient): Recipient {
    if r.messages == [] then r
    else
      var status := if r.status.Blocked? && r.reason.Some? && Latest(r).dispatch.Pending?
                    then r.status else StatusOf(r.claimToken, Latest(r));
      r.(firstAttemptAt := Some(r.messages[0].createdAt), latestAttemptAt := Some(Latest(r).createdAt),
         evidence := LatestEvidence(r.messages), status := status)
  }

  // ---- Operations on one recipient ----

  function NewMessage(row: Payload.Row, createdAt: Time): Message {
    Message(row, createdAt, DispatchState.Pending, None, None, NO_EVIDENCE)
  }

  predicate MessageFailed(m: Message) {
    m.dispatch.DefinitiveFailed? || m.provider == Some(ProviderState.Failed)
  }

  function Block(r: Recipient, reason: BlockReason): Recipient {
    r.(status := RecipientStatus.Blocked, reason := Some(reason), claimToken := None, claimedAt := None)
  }

  /** One recipient of a claim: link the conversation, make sure there is a pending message, claim. */
  function Claim(r: Recipient, initial: Message, command: Uuid, now: Time): Recipient {
    var linked := r.(conversation := Some(r.phone));
    if linked.messages != [] && !Latest(linked).dispatch.Pending? then Block(linked, AttemptAlreadyExists)
    else
      var messages := if linked.messages == [] then [initial] else linked.messages;
      Project(linked.(messages := messages, status := RecipientStatus.InProgress,
                      claimToken := Some(command), claimedAt := Some(now)))
  }

  predicate Stale(r: Recipient, threshold: Time) {
    r.status.InProgress? && r.claimedAt.Some? && r.claimedAt.value < threshold
  }

  /** One recipient of a stale-claim recovery. */
  function Recover(r: Recipient): Recipient {
    if r.messages == [] then
      r.(status := RecipientStatus.Ready, claimToken := None, claimedAt := None)
    else if Latest(r).dispatch.Pending? then
      Project(r.(status := RecipientStatus.Ready, claimToken := None, claimedAt := None))
    else if Latest(r).dispatch.InProgress? then
      Project(WithMessage(r.(claimToken := None, claimedAt := None), |r.messages| - 1,
                          Latest(r).(dispatch := DispatchState.Unknown)))
    else Project(r)
  }

  function WithMessage(r: Recipient, rank: nat, m: Message): Recipient
    requires rank < |r.messages|
  {
    r.(messages := r.messages[rank := m])
  }

  /** The message service hands the latest pending message over to the provider. */
  function Start(r: Recipient, rank: nat): Recipient
    requires rank < |r.messages|
  {
    Project(WithMessage(r, rank, r.messages[rank].(dispatch := DispatchState.InProgress)))
  }

  datatype Answer = AcceptedAs(externalId: string, provider: Option<ProviderState>, evidence: Evidence)
                  | Refused | AcceptanceUnknown

  function Answered(m: Message, answer: Answer, now: Time): Message {
    match answer
    case AcceptedAs(externalId, provider, evidence) =>
      m.(dispatch := DispatchState.Accepted, externalId := Some(externalId), provider := provider, evidence := evidence)
    case Refused =>
      m.(dispatch := DispatchState.DefinitiveFailed,
         evidence := m.evidence.(failedAt := Some(Earlier(m.evidence.failedAt, now))))
    case AcceptanceUnknown => m.(dispatch := DispatchState.Unknown)
  }

  function Earlier(current: Option<Time>, candidate: Time): Time {
    if current.None? || candidate < current.value then candidate else current.value
  }

  /** Reconciliation only applies to a message that is still in progress. */
  function Reconcile(r: Recipient, rank: nat, answer: Answer, now: Time): Recipient
    requires rank < |r.messages|
  {
    if r.messages[rank].dispatch.InProgress?
    then Project(WithMessage(r, rank, Answered(r.messages[rank], answer, now)))
    else r
  }

  /** A delivery status for a message the provider has accepted. */
  function Notify(r: Recipient, rank: nat, provider: ProviderState, evidence: Evidence): Recipient
    requires rank < |r.messages|
  {
    if r.messages[rank].externalId.Some?
    then Project(WithMessage(r, rank, r.messages[rank].(provider := Some(provider), evidence := evidence)))
    else r
  }

  function Retry(r: Recipient, next: Message): Recipient {
    Project(r.(messages := r.messages + [next], reason := None, claimToken := None, claimedAt := None))
  }

  // ---- What every reachable recipient satisfies ----

  predicate Settled(d: DispatchState) {
    d.Accepted? || d.DefinitiveFailed?
  }

  /** Each retry names its predecessor, and only settled messages have a successor. */
  predicate Chained(messages: seq<Message>) {
    forall k | 0 <= k < |messages| ::
      && messages[k].row.retryOf == (if k == 0 then None else Some(k - 1))
      && (messages[k].externalId.Some? <==> messages[k].dispatch.Accepted?)
      && (messages[k].provider.Some? ==> messages[k].dispatch.Accepted?)
      && (k < |messages| - 1 ==> Settled(messages[k].dispatch))
  }

  /** The stored projection is the one computed from the messages, unless the recipient is blocked. */
  predicate Projected(r: Recipient)
    requires r.messages != []
  {
    && r.firstAttemptAt == Some(r.messages[0].createdAt)
    && r.latestAttemptAt == Some(Latest(r).createdAt)
    && r.evidence == LatestEvidence(r.messages)
    && (r.status.Blocked? || r.status == StatusOf(r.claimToken, Latest(r)))
  }

  predicate ClaimConsistent(r: Recipient) {
    && (r.claimToken.Some? <==> r.claimedAt.Some?)
    && (r.status.Blocked? ==> r.reason.Some? && r.claimToken.None?)
    && (r.status.Ready? || r.status.Draft? ==> r.reason.None? && r.claimToken.None?)
    && (r.status.InProgress? ==> (r.claimToken.Some? <==> r.reason.None?))
  }

  predicate Sound(r: Recipient) {
    && Chained(r.messages)
    && ClaimConsistent(r)
    && (r.messages == [] ==> r.status.Draft? || r.status.Ready?)
    && (r.messages != [] ==>
          && r.conversation == Some(r.phone)
          && Projected(r)
          && !r.status.Draft?
          && (Latest(r).dispatch.Pending? && !r.status.Blocked? ==> r.reason.None?))
  }

  lemma ClaimSound(r: Recipient, initial: Message, command: Uuid, now: Time)
    requires Sound(r) && r.status.Ready?
    requires initial.row.retryOf.None? && initial == NewMessage(initial.row, initial.createdAt)
    ensures var c := Claim(r, initial, command, now);
            Sound(c) && c.status.InProgress? && Latest(c).dispatch.Pending? && c.claimToken == Some(command)
  {
  }

  lemma ProjectSound(r: Recipient)
    requires Chained(r.messages) && r.messages != [] && r.conversation == Some(r.phone)
    requires !Latest(r).dispatch.Pending? && !Latest(r).dispatch.InProgress?
    requires r.claimToken.Some? <==> r.claimedAt.Some?
    ensures Sound(Project(r)) && !Project(r).status.InProgress? && !Project(r).status.Ready?
  {
  }

  lemma SettleLatest(r: Recipient, m: Message)
    requires Chained(r.messages) && r.messages != [] && m.row == Latest(r).row
    requires (m.externalId.Some? <==> m.dispatch.Accepted?) && (m.provider.Some? ==> m.dispatch.Accepted?)
    ensures Chained(WithMessage(r, |r.messages| - 1, m).messages)
  {
  }

  lemma RecoverSound(r: Recipient)
    requires Sound(r) && r.status.InProgress?
    ensures Sound(Recover(r)) && !Recover(r).status.InProgress?
  {
    if Latest(r).dispatch.InProgress? {
      var m := Latest(r).(dispatch := DispatchState.Unknown);
      SettleLatest(r, m);
      ProjectSound(WithMessage(r.(claimToken := None, claimedAt := None), |r.messages| - 1, m));
    }
  }

  lemma BlockSound(r: Recipient, reason: BlockReason)
    requires Sound(r) && r.messages != []
    ensures Sound(Block(r, reason))
  {
  }

  lemma StartSound(r: Recipient)
    requires Sound(r) && r.status.InProgress? && r.messages != [] && Latest(r).dispatch.Pending?
    ensures Sound(Start(r, |r.messages| - 1)) && Start(r, |r.messages| - 1).status.InProgress?
  {
  }

  lemma AnsweredSettles(m: Message, answer: Answer, now: Time)
    requires m.externalId.None? && m.provider.None?
    ensures var n := Answered(m, answer, now);
            && n.row == m.row && !n.dispatch.Pending? && !n.dispatch.InProgress?
            && (n.externalId.Some? <==> n.dispatch.Accepted?) && (n.provider.Some? ==> n.dispatch.Accepted?)
  {
  }

  lemma ReconcileSound(r: Recipient, rank: nat, answer: Answer, now: Time)
    requires Sound(r) && rank < |r.messages|
    ensures Sound(Reconcile(r, rank, answer, now))
    ensures r.messages[rank].dispatch.InProgress? ==>
              var c := Reconcile(r, rank, answer, now); !c.status.Ready? && !c.status.InProgress?
  {
    if r.messages[rank].dispatch.InProgress? {
      var m := Answered(r.messages[rank], answer, now);
      assert rank == |r.messages| - 1;
      AnsweredSettles(r.messages[rank], answer, now);
      SettleLatest(r, m);
      ProjectSound(WithMessage(r, rank, m));
    }
  }

  /** The failure time is the earlier of the one there is and now. */
  predicate FailedBy(before: Option<Time>, after: Option<Time>, now: Time) {
    after.Some? && after.value <= now
    && (if before.Some? then after.value <= before.value && (after == before || after.value == now)
        else after.value == now)
  }

  /** Only the message of that rank and the recipient's projection change. */
  predicate OnlyMessageChanged(r: Recipient, s: Recipient, rank: nat) {
    && |s.messages| == |r.messages| && (forall k | 0 <= k < |r.messages| && k != rank :: s.messages[k] == r.messages[k])
    && s.customer == r.customer && s.phone == r.phone && s.consentEvent == r.consentEvent
    && s.conversation == r.conversation && s.claimToken == r.claimToken && s.claimedAt == r.claimedAt
    && s.reason == r.reason
  }

  /**
   What each answer leaves in the columns of the message and in the recipient's status: an acceptance
   that is unknown is no failure, and a refusal is one from now on.
   */
  lemma AnswerGives(r: Recipient, rank: nat, answer: Answer, now: Time)
    requires Sound(r) && rank < |r.messages| && r.messages[rank].dispatch.InProgress?
    ensures var s := Reconcile(r, rank, answer, now);
            && OnlyMessageChanged(r, s, rank)
            && var m, n := r.messages[rank], s.messages[rank];
            && n.row == m.row && n.createdAt == m.createdAt
            && match answer
               case AcceptanceUnknown =>
                 n.dispatch == DispatchState.Unknown && s.status == RecipientStatus.Unknown
                 && n.provider.None? && n.externalId.None? && n.evidence == m.evidence
               case Refused =>
                 n.dispatch == DispatchState.DefinitiveFailed && s.status == RecipientStatus.Failed
                 && n.provider.None? && n.externalId.None?
                 && FailedBy(m.evidence.failedAt, n.evidence.failedAt, now)
                 && n.evidence == m.evidence.(failedAt := n.evidence.failedAt)
               case AcceptedAs(externalId, provider, evidence) =>
                 n.dispatch == DispatchState.Accepted && n.externalId == Some(externalId) && n.provider == provider
                 && n.evidence == evidence && SpelledOut(s)
  {
  }

  /** What each status means for the latest message. */
  predicate SpelledOut(r: Recipient)
    requires r.messages != []
  {
    var m := r.messages[|r.messages| - 1];
    var silent := m.provider.Some? ==> m.provider.value == ProviderState.Received;
    match r.status
    case Read => m.provider == Some(ProviderState.Read)
    case Delivered => m.provider == Some(ProviderState.Delivered)
    case Sent => m.provider == Some(ProviderState.Sent)
    case Failed => m.provider == Some(ProviderState.Failed) || (silent && m.dispatch == DispatchState.DefinitiveFailed)
    case Unknown => silent && m.dispatch == DispatchState.Unknown
    case Accepted => silent && m.dispatch == DispatchState.Accepted
    case Ready => silent && m.dispatch == DispatchState.Pending && r.claimToken.None?
    case InProgress =>
      silent && (m.dispatch == DispatchState.InProgress || (m.dispatch == DispatchState.Pending && r.claimToken.Some?))
    case Blocked => true
    case Draft => false
  }

  lemma SoundIsSpelledOut(r: Recipient)
    requires Sound(r) && r.messages != []
    ensures SpelledOut(r)
  {
  }

  lemma NotifyChained(r: Recipient, rank: nat, provider: ProviderState, evidence: Evidence)
    requires Chained(r.messages) && rank < |r.messages|
    ensures Chained(Notify(r, rank, provider, evidence).messages)
  {
  }

  lemma NotifySound(r: Recipient, rank: nat, provider: ProviderState, evidence: Evidence)
    requires Sound(r) && rank < |r.messages|
    ensures Sound(Notify(r, rank, provider, evidence))
  {
    NotifyChained(r, rank, provider, evidence);
    if r.messages[rank].externalId.Some? {
      var notified := WithMessage(r, rank, r.messages[rank].(provider := Some(provider), evidence := evidence));
      assert Notify(r, rank, provider, evidence) == Project(notified);
      if rank == |r.messages| - 1 {
        ProjectSound(notified);
      } else {
        ReprojectSound(r, notified);
      }
    }
  }

  /** Projecting again after an earlier message changed. */
  lemma ReprojectSound(r: Recipient, notified: Recipient)
    requires Sound(r) && r.messages != [] && Chained(notified.messages) && |notified.messages| == |r.messages|
    requires notified == r.(messages := notified.messages) && Latest(notified) == Latest(r)
    ensures Sound(Project(notified))
  {
  }

  /** A failed recipient always has a failed latest message, so a retry never meets another. */
  lemma FailedHasFailedMessage(r: Recipient)
    requires Sound(r) && r.status.Failed?
    ensures r.messages != [] && MessageFailed(Latest(r)) && r.conversation.Some?
  {
  }

  lemma RetrySound(r: Recipient, next: Message)
    requires Sound(r) && r.status.Failed?
    requires next == NewMessage(next.row, next.createdAt) && next.row.retryOf == Some(|r.messages| - 1)
    ensures Sound(Retry(r, next)) && Retry(r, next).status.Ready?
  {
  }
}
