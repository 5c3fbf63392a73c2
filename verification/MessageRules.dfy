/**
 Which outbound messages the message service accepts, over the columns of the request, and what it
 stores of them.
 */
module MessageRules {
  import opened Wrappers
  import opened Trimming
  import opened Payload

  /** There is a text with something other than white space in it. */
  predicate Says(value: Option<string>) {
    value.Some? && !Blank(value.value)
  }

  /** The normal form of a text that may be absent. */
  ghost predicate NormalOf(given: Option<string>, value: Option<string>) {
    if given == None then value == None else NormalText(given.value, value)
  }

  lemma OptionalTextIs(given: Option<string>)
    ensures NormalOf(given, OptionalText(given))
    ensures OptionalText(given).Some? <==> Says(given)
  {
    if given.Some? {
      StripIsNormal(given.value);
    }
  }

  /** A reference, a type, and no negative size. */
  predicate ProperAttachment(a: Attachment) {
    && (Says(a.providerMediaId) || Says(a.storageKey)) && !Blank(a.mimeType)
    && (a.sizeBytes.Some? ==> a.sizeBytes.value >= 0)
  }

  /**
   A template has name and language and no text of its own where it must not; a broadcast message is a
   template for a recipient; a person's message has no recipient and says something or carries a file.
   */
  predicate ProperMessage(i: Input) {
    var template := Says(i.templateName) || Says(i.templateLanguage);
    && (template ==> Says(i.templateName) && Says(i.templateLanguage))
    && ProperShape(i, Says(i.body), template)
    && (i.attachment.Some? ==> ProperAttachment(i.attachment.value))
  }

  predicate ProperShape(i: Input, says: bool, template: bool) {
    && (i.origin == Broadcast ==> template && i.recipient != None && !says)
    && (i.origin == Human ==> i.recipient == None)
    && (i.messageType == Text && template ==> !says)
    && (i.messageType == Text && !template ==> says && i.attachment == None)
    && (i.messageType != Text ==> i.attachment != None)
  }

  lemma AcceptedIff(i: Input)
    ensures Normalize(i).Success? <==> ProperMessage(i)
  {
    SaysIff(i.body);
    SaysIff(i.templateName);
    SaysIff(i.templateLanguage);
    ShapeIff(i, OptionalText(i.body), OptionalText(i.templateName), OptionalText(i.templateLanguage));
    if i.attachment.Some? {
      AttachmentAcceptedIff(i.attachment.value);
    }
  }

  lemma SaysIff(given: Option<string>)
    ensures OptionalText(given).Some? <==> Says(given)
  {
    OptionalTextIs(given);
  }

  lemma ShapeIff(i: Input, body: Option<string>, name: Option<string>, language: Option<string>)
    ensures ShapeRefusal(i, body, name, language).None?
            <==> (name.Some? <==> language.Some?) && ProperShape(i, body.Some?, name.Some?)
  {
  }

  lemma AttachmentAcceptedIff(a: Attachment)
    ensures NormalizeAttachment(a).Success? <==> ProperAttachment(a)
  {
    SaysIff(a.providerMediaId);
    SaysIff(a.storageKey);
    StripIsNormal(a.mimeType);
  }

  ghost predicate NormalAttachment(given: Attachment, a: Attachment) {
    && NormalOf(given.providerMediaId, a.providerMediaId) && NormalOf(given.storageKey, a.storageKey)
    && NormalText(given.mimeType, Some(a.mimeType)) && NormalOf(given.filename, a.filename)
    && a.sizeBytes == given.sizeBytes
  }

  /** The texts are trimmed, every other column is the request's. */
  lemma NormalizedColumns(i: Input)
    requires Normalize(i).Success?
    ensures var n := Normalize(i).value;
            && n.conversation == i.conversation && n.clientId == i.clientId && n.sentBy == i.sentBy
            && n.messageType == i.messageType && n.retryOf == i.retryOf && n.origin == i.origin
            && n.recipient == i.recipient
            && NormalOf(i.body, n.body) && NormalOf(i.templateName, n.templateName)
            && NormalOf(i.templateLanguage, n.templateLanguage)
            && (n.attachment.Some? <==> i.attachment.Some?)
            && (i.attachment.Some? ==> NormalAttachment(i.attachment.value, n.attachment.value))
  {
    OptionalTextIs(i.body);
    OptionalTextIs(i.templateName);
    OptionalTextIs(i.templateLanguage);
    if i.attachment.Some? {
      AttachmentIsNormal(i.attachment.value);
    }
  }

  lemma AttachmentIsNormal(a: Attachment)
    ensures NormalizeAttachment(a).Success? ==> NormalAttachment(a, NormalizeAttachment(a).value)
  {
    OptionalTextIs(a.providerMediaId);
    OptionalTextIs(a.storageKey);
    OptionalTextIs(a.filename);
    StripIsNormal(a.mimeType);
  }

  /** A stored message repeats a request exactly when no column but the client id differs. */
  lemma RepeatsIff(row: Row, i: Input)
    ensures SamePayload(row, i)
            <==> row == Row(i.conversation, row.clientId, i.sentBy, i.messageType, i.body, i.attachment, i.retryOf,
                            i.origin, i.recipient, i.templateName, i.templateLanguage)
  {
  }
}
