/**
 The payload of a broadcast message: what a claim or a retry stores, what the dispatcher
 rebuilds from the broadcast later, and the two checks (normalisation and idempotent replay)
 that the rebuilt payload must pass before the stored message can be dispatched.
 */
module Payload {
  import opened Wrappers
  import opened Trimming

  type UserId = nat
  type Uuid = nat

  datatype MessageType = Text | Image | Document | Audio

  datatype Origin = Human | Broadcast

  datatype Attachment = Attachment(providerMediaId: Option<string>, storageKey: Option<string>,
                                   mimeType: string, filename: Option<string>, sizeBytes: Option<int>)

  datatype Input = Input(conversation: string, clientId: Uuid, sentBy: UserId, messageType: MessageType,
                         body: Option<string>, attachment: Option<Attachment>, retryOf: Option<nat>,
                         origin: Origin, recipient: Option<nat>,
                         templateName: Option<string>, templateLanguage: Option<string>)

  /** The immutable columns of a persisted outbound message. */
  datatype Row = Row(conversation: string, clientId: Uuid, sentBy: UserId, messageType: MessageType,
                     body: Option<string>, attachment: Option<Attachment>, retryOf: Option<nat>,
                     origin: Origin, recipient: Option<nat>,
                     templateName: Option<string>, templateLanguage: Option<string>)

  /** Stored header media of a broadcast. */
  datatype Media = Media(storageKey: string, mimeType: string, filename: Option<string>, sizeBytes: int)

  /** The provider template and header media a broadcast was drafted with. */
  datatype Template = Template(name: string, language: string, headerType: Option<MessageType>,
                               media: Option<Media>)

  // ---- The message service's checks ----

  datatype Refusal = IncompleteTemplate | BroadcastIdentityRequired | BodyNotAllowed
                   | RecipientNotAllowed | BodyRequired | AttachmentNotAllowed
                   | AttachmentRequired | MediaReferenceRequired | MimeTypeRequired | NegativeSize

  function NormalizeAttachment(a: Attachment): Result<Attachment, Refusal> {
    var providerMediaId := OptionalText(a.providerMediaId);
    var storageKey := OptionalText(a.storageKey);
    var mimeType := Strip(a.mimeType);
    if providerMediaId.None? && storageKey.None? then Failure(MediaReferenceRequired)
    else if mimeType == "" then Failure(MimeTypeRequired)
    else if a.sizeBytes.Some? && a.sizeBytes.value < 0 then Failure(NegativeSize)
    else Success(Attachment(providerMediaId, storageKey, mimeType, OptionalText(a.filename), a.sizeBytes))
  }

  function ShapeRefusal(i: Input, body: Option<string>, name: Option<string>, language: Option<string>)
    : Option<Refusal>
  {
    var isTemplate := name.Some? || language.Some?;
    if isTemplate && (name.None? || language.None?) then Some(IncompleteTemplate)
    else if i.origin.Broadcast? && (i.recipient.None? || name.None? || language.None?)
    then Some(BroadcastIdentityRequired)
    else if i.origin.Broadcast? && body.Some? then Some(BodyNotAllowed)
    else if i.origin.Human? && i.recipient.Some? then Some(RecipientNotAllowed)
    else if i.messageType.Text? then
      if i.origin.Human? && !isTemplate && body.None? then Some(BodyRequired)
      else if i.attachment.Some? && !isTemplate then Some(AttachmentNotAllowed)
      else if isTemplate && body.Some? then Some(BodyNotAllowed)
      else None
    else if i.attachment.None? then Some(AttachmentRequired)
    else None
  }

  function Normalize(i: Input): Result<Input, Refusal> {
    var body := OptionalText(i.body);
    var name := OptionalText(i.templateName);
    var language := OptionalText(i.templateLanguage);
    var refusal := ShapeRefusal(i, body, name, language);
    if refusal.Some? then Failure(refusal.value)
    else if i.attachment.None? then
      Success(i.(body := body, templateName := name, templateLanguage := language))
    else
      var attachment := NormalizeAttachment(i.attachment.value);
      if attachment.Failure? then Failure(attachment.error)
      else Success(i.(body := body, templateName := name, templateLanguage := language,
                      attachment := Some(attachment.value)))
  }

  /** Replay identity of a persisted message and a normalised input. */
  predicate SamePayload(row: Row, i: Input) {
    row.conversation == i.conversation && row.sentBy == i.sentBy && row.messageType == i.messageType
    && row.body == i.body && row.retryOf == i.retryOf && row.origin == i.origin
    && row.recipient == i.recipient && row.templateName == i.templateName
    && row.templateLanguage == i.templateLanguage && row.attachment == i.attachment
  }

  // ---- What a broadcast stores and what it replays ----

  function MessageTypeOf(t: Template): MessageType {
    if t.headerType.None? then Text else t.headerType.value
  }

  function AttachmentOf(t: Template): Option<Attachment> {
    if t.media.None? then None
    else Some(Attachment(None, Some(t.media.value.storageKey), t.media.value.mimeType,
                         t.media.value.filename, Some(t.media.value.sizeBytes)))
  }

  function StoredRow(t: Template, recipient: nat, conversation: string, clientId: Uuid, sentBy: UserId,
                     retryOf: Option<nat>): Row {
    Row(conversation, clientId, sentBy, MessageTypeOf(t), None, AttachmentOf(t), retryOf, Broadcast,
        Some(recipient), Some(t.name), Some(t.language))
  }

  function PlannedInput(t: Template, recipient: nat, conversation: string, clientId: Uuid, sentBy: UserId,
                        retryOf: Option<nat>): Input {
    Input(conversation, clientId, sentBy, MessageTypeOf(t), None, AttachmentOf(t), retryOf, Broadcast,
          Some(recipient), Some(t.name), Some(t.language))
  }

  predicate Replays(row: Row, plan: Input) {
    var normalized := Normalize(plan);
    normalized.Success? && SamePayload(row, normalized.value)
  }

  predicate MediaReplayable(m: Media) {
    Trimmed(m.storageKey) && Trimmed(m.mimeType) && m.sizeBytes >= 0
    && (m.filename.None? || Trimmed(m.filename.value))
  }

  /** What the draft can be checked for before anything is sent. */
  predicate Replayable(t: Template) {
    Trimmed(t.name) && Trimmed(t.language)
    && (t.headerType.None? || t.headerType.value.Text? || t.media.Some?)
    && (t.media.Some? ==> MediaReplayable(t.media.value))
  }

  lemma MediaKeptIffReplayable(t: Template)
    requires t.media.Some?
    ensures NormalizeAttachment(AttachmentOf(t).value) == Success(AttachmentOf(t).value)
            <==> MediaReplayable(t.media.value)
  {
    var m := t.media.value;
    TrimmedIffKept(m.storageKey);
    TrimmedIffKept(m.mimeType);
    if m.filename.Some? {
      TrimmedIffKept(m.filename.value);
    }
  }

  /**
   The payload rebuilt for a stored message passes both checks if and only if the template is
   replayable and the message was stored on behalf of the user the plan names.
   */
  lemma ReplaysIff(t: Template, recipient: nat, conversation: string, clientId: Uuid,
                   storedBy: UserId, plannedBy: UserId, retryOf: Option<nat>)
    ensures Replays(StoredRow(t, recipient, conversation, clientId, storedBy, retryOf),
                    PlannedInput(t, recipient, conversation, clientId, plannedBy, retryOf))
            <==> Replayable(t) && storedBy == plannedBy
  {
    TrimmedIffKept(t.name);
    TrimmedIffKept(t.language);
    if t.media.Some? {
      MediaKeptIffReplayable(t);
    }
  }

  /** Any template whose header is media and that has none: accepted as a draft, refused at every dispatch. */
  lemma MediaHeaderWithoutMediaNeverReplays(t: Template, recipient: nat, conversation: string, clientId: Uuid,
                                            user: UserId, retryOf: Option<nat>)
    requires t.headerType.Some? && !t.headerType.value.Text? && t.media.None?
    ensures var plan := PlannedInput(t, recipient, conversation, clientId, user, retryOf);
            Normalize(plan) == Failure(if Strip(t.name) == "" && Strip(t.language) == "" then BroadcastIdentityRequired
                                       else if Strip(t.name) == "" || Strip(t.language) == "" then IncompleteTemplate
                                       else AttachmentRequired)
  {
  }
}
