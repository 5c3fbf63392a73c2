# Verified models of the CRM backend

This project models, in Dafny, the parts of the CRM backend whose rules span several functions and
several users at once, and proves what they promise in every run. A service method's transaction
is one atomic step. A transaction that raises writes nothing. Times are whole microseconds and
weights whole thousandths of a kilogram.

## The models

**Broadcast dispatch** (`Consent`, `Payload`, `MessageRules`, `Digest*`, `Broadcast*`,
`Dispatch*`, `SingleWorker*`). A broadcast moves DRAFT, CONFIRMED, PROCESSING, COMPLETED. Workers
recover stale claims, claim ready recipients, prepare a plan, are admitted by the message service,
start, call the provider outside any transaction and reconcile. Each of these is a step of its
own; steps of any number of workers interleave with each other, with operators and with an
environment that changes customers, consents, conversations, users and delivery states, and a
worker may stop anywhere. `BroadcastTransactions` has each transaction as a function on the
database, `DispatchProtocol` the state machine over them, `BroadcastInvariant` and
`DispatchSafety` what every step keeps, and `DispatchTheorems`, `DispatchAttempts`,
`DispatchClaims`, `DispatchStranded`, `DispatchHistory` and `DispatchConfirmation` what follows
for every run. `BroadcastEffects` and `BroadcastRules` say over the columns what each transaction
writes and when. `DispatchOutcomes` has the history of what the provider answered and reported,
and what it explains; `DispatchRecovery` which claims are taken back. The histories of messages
handed over, of provider calls and of issued validations are part of the system state.
`DigestBinding` says what the validation digest determines, and `SingleWorkerRuns` that the calls
of a lone worker are runs of the protocol. `BroadcastStore` is the imperative form: recipient rows
whose columns are assigned in place and a store whose transactions loop over them, each proved
against the function of the same step.

**Opportunity ledger** (`OpportunityLedger`, `LedgerInvariant`, `LedgerTheorems`, `LedgerRules`,
`OpportunityStore`, `LossStatistics`, `LossWorkspace`). Opportunities with quotes, an append-only
history, loss events with product snapshots, reopen events and stale notices, under every sequence
of operations and changes of customers, products and users. `LedgerRules` says of each operation
when it goes through, with which error it does not, and which columns it leaves.

**Customer import** (`CustomerIdentity`, `CustomerImport`, `ImportColumns`, `ImportPreview`,
`ImportStability`, `ImportTheorems`, `CustomerImportStore`). A preview classifies rows, a commit
revalidates and applies them one by one to the customers as they change. `ImportColumns` follows a
record from its five values to the customer it makes, `ImportPreview` says what each row is
classified as.

**Derived views**: the inbox index of a conversation (`Inbox`, `InboxTheorems`, `InboxStore`),
timeline and overview metrics over civil dates (`Calendar`, `CivilDays`, `Metrics`,
`MetricsHistory`, `MetricsTheorems`), and keyset pagination with text cursors (`KeysetPages`,
`PageCursors`, `Base64Url`, `OpportunityNotes`, `NoteRules`, `NoteStore`), the latter after
sections 3.2 and 5 of RFC 4648.

`Wrappers`, `Trimming`, `Decimals`, `Division`, `TextOrder` and `Tables` hold what several of
these share.

## Where the code does less than one would expect

The model follows the code. These are the places where a natural statement, or a document of the
repository, is false of it; each has a concrete input or run, and the exact condition where one
exists.

- docs/specs/011 says that BLOCKED means no provider call was made. A slow worker can block the
  recipient of a message that a faster one already had accepted (`BlockedDoesNotMeanUnsent`). It is
  true exactly of a message that is still pending (`BlockedUnsentIff`), and the step that blocks
  breaks it exactly when the message was no longer pending at that transaction
  (`BlockingHandedOverIff`, `BlockedUncalledIff`). The message itself keeps its outcome
  (`OutcomesAreFinal`).
- docs/specs/011 says that COMPLETED has nothing in progress. A delivery status of an earlier
  attempt re-projects a recipient that was blocked while its latest message was in flight
  (`CompletedDoesNotMeanIdle`). `StatusReopensIff` says exactly which statuses do, every one of them
  breaks a completed broadcast (`ReopenedWhileCompleted`), nothing else does
  (`CompletedStaysIdleIff`), and runs without one keep the promise (`ClaimedWhileInProgress`).
- Such a recipient has no claim time, so recovery never takes it back. When its sender stopped, it
  stays in progress and a processing broadcast never completes (`NeverCompletes`,
  `StrandedForEver`); `FreedIff` says exactly which steps end it.
- A recipient in progress has a claim token exactly when it has no block reason
  (`ProjectionAgreement`), not always.
- A retry by another user than the starter is stored under that user, but the plan is rebuilt for
  the starter: the message is refused as a reused id and never sent (`ReplaysIff`,
  `RetryByAnotherNeverSent`). The same holds for a media header without media.
- A blocked recipient with a pending message stays so for ever, delivery statuses included
  (`AbandonedForEver`).
- The log can contradict a call afterwards, because external opt-outs may be backdated
  (`HindsightIff`, `BackdatedOptOut`).
- The joined digest text does not determine the parameters: a template's names may continue one
  another after an equals sign (`ParametersNotBound`), and a value may hold the separator
  (`ValuesNotBound`). It determines every draft exactly when neither is possible
  (`DigestBindsIff`). Confirmations are bound to them all the same because every edit of the draft
  clears the token
  (`ValidatedEqualsConfirmed`).
- A commit can reject the preview of the same file on unchanged customers
  (`PreviewRejectedByItsOwnCommit`, `CommitSucceedsIff`).
- docs/specs/056, AC-03: a new message after handling does not wait when a reply is later than both
  its own time and its arrival (`NewInboundAfterHandling`; a run is `NewInboundNeedNotWait`).
- The version of a quote is a time, so of two edits that expect the same version both pass when the
  first is made within the same tick of the clock; otherwise the second is refused
  (`SecondQuoteEditIff`).
- In the loss statistics a province named `<NONE>` falls together with the losses without one
  (`ProvinceKeyIff`).
- Lost weight by product misses weight when a product was renamed between losses
  (`ProductsMatchOverviewIff`, `RenamedProductLosesWeight`).

## Model

| member | source | states |
|---|---|---|
| DispatchTheorems.AtMostOnce | backend/app/services/whatsapp_message_service.py:148-263 | In every run of any workers, crashes, recoveries, operators and environment from a fresh draft, no message is in the log of provider calls twice. |
| DispatchTheorems.ConsentGate | backend/app/services/whatsapp_message_service.py:217-249 | For every provider call, when its dispatch started the newest consent event in force for that customer and phone was an opt-in, and the customer was not deleted and still had that phone. |
| DispatchTheorems.HindsightIff | backend/app/services/whatsapp_consent_service.py:279-298 | The opt-in a dispatch relied on still stands in the later log exactly when no opt-out recorded afterwards, effective by then, is newer than every opt-in in force. |
| DispatchTheorems.BackdatedOptOut | backend/app/services/whatsapp_consent_service.py:68-187 | Concrete events: an external opt-out accepted with a past effective time makes the log disagree with a call made in good faith. |
| DispatchTheorems.OnlyReplayableSent | backend/app/services/whatsapp_broadcast_service.py:1304-1327 | A message that is sent belongs to a replayable template and was stored for the user who started the broadcast. |
| DispatchTheorems.RetryByAnotherNeverSent | backend/app/services/whatsapp_broadcast_service.py:895-928 | A message stored by a retry of another user than the starter is sent in no continuation of any run. |
| DispatchTheorems.ProjectionAgreement | backend/app/services/whatsapp_broadcast_projection_service.py:16-91 | Every reachable recipient with messages is blocked or has the status of its latest message; what READY, IN_PROGRESS, FAILED and BLOCKED imply about message, claim token and reason. |
| DispatchTheorems.ClaimNeverBlocks | backend/app/services/whatsapp_broadcast_service.py:721-753 | Claiming a ready recipient of a reachable state never meets an attempt that already left the pending state: that branch is dead. |
| DispatchTheorems.RecoveryNeverMeetsReconciled | backend/app/services/whatsapp_broadcast_service.py:1527-1554 | A stale claim always has a message, pending or in progress: recovery ends in READY or UNKNOWN and its last branch is dead. |
| DispatchTheorems.PlanFindsItsMessage | backend/app/services/whatsapp_message_service.py:378-399 | The client id in a worker's plan always names a stored message of that recipient, so replaying the plan creates none. |
| DispatchTheorems.AbandonedForEver | backend/app/services/whatsapp_broadcast_projection_service.py:52-57 | A blocked recipient whose latest message is pending stays so in every continuation, and that message is never sent, delivery statuses included. |
| DispatchTheorems.OutcomesAreFinal | backend/app/services/whatsapp_message_service.py:615-616 | An accepted, refused or unknown message keeps its dispatch state in every continuation; a late reconciliation never overturns a recovery. |
| DispatchTheorems.CompletedIsIdle | backend/app/services/whatsapp_broadcast_service.py:1564-1577 | A completed broadcast has no READY recipient, and an IN_PROGRESS one only unclaimed, with a block reason and a message in flight. |
| DispatchTheorems.FirstCompletionFixed | backend/app/services/whatsapp_broadcast_service.py:1569-1570 | Once written, first_completed_at is the same in every continuation. |
| DispatchTheorems.OneRecipientPerPhone | backend/app/services/whatsapp_broadcast_service.py:362-380 | No two recipients of a reachable broadcast share a phone. |
| DispatchOutcomes.OutcomesWereHeard | backend/app/services/whatsapp_message_service.py:595-683 | In every run, over the history of answers and delivery reports: an accepted message was answered with that external id, a refused one was refused, and a stored delivery state came with the acceptance or in a report. |
| DispatchOutcomes.SuccessorOnlyAfterHeardFailure | backend/app/services/whatsapp_broadcast_service.py:895-928 | In every run a message is followed by another only if the provider refused it or reported it failed. |
| DispatchOutcomes.UnknownIsNeverRetried | backend/app/services/whatsapp_message_service.py:661-683 | In every run a message whose send was answered unknown has no successor, no delivery state and no external id, and is stored as in progress or unknown. |
| DispatchOutcomes.OneAnswerEach | backend/app/services/whatsapp_message_service.py:113-146 | In every run only messages that were sent are answered, and none with two answers. |
| DispatchOutcomes.RunExplained | backend/app/services/whatsapp_message_service.py:595-683 | In every run, stored outcomes, successors and the answers that workers hold are explained by what was heard. |
| DispatchRecovery.RecoveredIff | backend/app/services/whatsapp_broadcast_service.py:1504-1524 | For every database, clock and locks: recovery changes a recipient exactly when the broadcast is processing, nobody holds it, it is in progress, and its claim time is before now less the claim timeout. |
| DispatchRecovery.RecoveredColumns | backend/app/services/whatsapp_broadcast_service.py:1526-1556 | A recovered recipient with a pending message is ready with that same message, one with a message in flight is unknown, and both lose their claim; no other message moves. |
| DispatchRecovery.RecoveryAudits | backend/app/services/whatsapp_broadcast_service.py:1535-1562 | A recovery adds exactly one audit for each recipient it takes back, in order, and leaves every other table alone. |
| DispatchRecovery.FreshClaimSurvives | backend/app/services/whatsapp_broadcast_service.py:1504-1524 | At every recovery of every run, a claim that is not older than the timeout is left untouched. |
| DispatchRecovery.ClaimEndsOnlyBy | backend/app/services/whatsapp_broadcast_service.py:1504-1562 | In every run a step that ends the claim of a recipient in progress is a recovery after the timeout, or the preparation or start by the worker that has the recipient. |
| DispatchSafety.StepKeeps | backend/app/services/whatsapp_broadcast_service.py:649-799 | The inductive step of the protocol: whoever acts, the system invariant is kept and the database only evolves (frozen inputs, messages only advance). |
| DispatchClaims.ClaimedWhileInProgress | backend/app/services/whatsapp_broadcast_service.py:1523-1544 | In every run none of whose delivery statuses reopens a recipient, each recipient in progress holds a claim token, and a completed broadcast has nothing remaining. |
| DispatchClaims.CompletedStaysIdleIff | docs/specs/011-whatsapp-broadcasts.md:343-345 | From a reachable completed broadcast with nothing remaining, a step that leaves it completed leaves something remaining exactly when it is a status that reopens. |
| DispatchClaims.ReopenedWhileCompleted | backend/app/services/whatsapp_broadcast_projection_service.py:52-57 | A reopening status that reaches a completed broadcast leaves it completed, with that recipient unclaimed in progress. |
| DispatchClaims.StatusReopensIff | backend/app/services/whatsapp_broadcast_projection_service.py:52-57 | A delivery status puts a recipient in progress exactly when it was blocked while its latest message is in flight and the status is for an earlier, accepted one: the statuses that reopen. |
| DispatchCounterexample.BlockedDoesNotMeanUnsent | docs/specs/011-whatsapp-broadcasts.md:193-195 | A concrete run in which a recipient is blocked although its message was handed to the provider. |
| DispatchHistory.BlockedUnsentIff | docs/specs/011-whatsapp-broadcasts.md:193-195 | In every run, the latest message of a blocked recipient was never handed to a sender exactly when it is pending; then the provider has not seen it, and one with an outcome it has. |
| DispatchHistory.BlockingHandedOverIff | backend/app/services/whatsapp_broadcast_service.py:1266-1327 | A preparing or starting step leaves a recipient blocked whose latest message was handed over exactly when that message was no longer pending at that transaction, and the step changes no message. |
| DispatchHistory.BlockedUncalledIff | docs/specs/011-whatsapp-broadcasts.md:193-195 | When no worker stopped, the provider never saw the latest message of a blocked recipient exactly when it is pending or some worker is about to send it. |
| DispatchHistory.OutcomeWasCalled | backend/app/services/whatsapp_message_service.py:595-683 | In every run, a message that was accepted or refused is in the log of provider calls. |
| DispatchHistory.StepAccounted | backend/app/services/whatsapp_message_service.py:148-263 | The inductive step: messages leave the pending state only by being handed over, once each, and get an outcome only after a call. |
| DispatchHistory.RunLosesNothing | backend/app/services/whatsapp_message_service.py:148-263 | When no worker stopped, every message handed over was sent or some worker is about to send it. |
| DispatchCounterexample.CompletedDoesNotMeanIdle | docs/specs/011-whatsapp-broadcasts.md:343-345 | A concrete run that ends in a completed broadcast with an unclaimed recipient in progress. |
| DispatchStranded.FreedIff | backend/app/services/whatsapp_broadcast_service.py:1504-1530 | In every run, recovery never selects an unclaimed recipient in progress, and a step ends that state exactly when a worker prepares it, starts it in vain, or writes the answer to its latest message. |
| DispatchStranded.StrandedUntilFreed | backend/app/services/whatsapp_broadcast_service.py:1504-1530 | In every continuation without such a step it stays in progress, a processing broadcast stays processing and no completion is recorded. |
| DispatchStranded.StrandedForEver | backend/app/services/whatsapp_broadcast_service.py:1504-1562 | Once no worker has it in hand or in its queue, that holds of every continuation. |
| DispatchCounterexample.NeverCompletes | backend/app/services/whatsapp_broadcast_service.py:1523-1530 | A concrete run that reaches such a state in a processing broadcast: the sender stopped and a status of the attempt before arrived. |
| DispatchAttempts.AttemptConservation | backend/app/services/whatsapp_broadcast_service.py:895-945 | In every run the messages are as many as the recipients with a message plus the affected counts of the retry audits. |
| DispatchAttempts.SuccessorOnlyAfterFailure | backend/app/services/whatsapp_broadcast_service.py:895-928 | A message gets a successor only from a retry, only while its recipient is failed and it has failed itself, and then one that names it. |
| DispatchAttempts.RetryChain | backend/app/services/whatsapp_broadcast_service.py:1478 | The messages of every reachable recipient form one chain of retry_of links in which only accepted or refused messages have successors. |
| DispatchAttempts.RetryAllCounts | backend/app/services/whatsapp_broadcast_service.py:895-928 | Serving the requests of one retry adds at most one message per recipient, whatever ids are repeated, and reports exactly how many. |
| DispatchConfirmation.ValidatedEqualsConfirmed | backend/app/services/whatsapp_broadcast_service.py:571-607 | A confirmation that succeeds uses the recipients, phones, draft and consent events of the validation that issued its token. |
| DispatchConfirmation.ConfirmedInputsFixed | backend/app/services/whatsapp_broadcast_service.py:1911-1922 | After a confirmation the draft, the template, the recipients, their phones and consent events are the same in every continuation. |
| Digest.ConsentsBound | backend/app/services/whatsapp_broadcast_service.py:1758-1781 | For the same draft and recipients, equal joined texts mean equal consent events. |
| DigestBinding.DigestBindsIff | backend/app/services/whatsapp_broadcast_service.py:1714-1781 | For any templates: over all drafts that the services store, equal joined texts mean equal inputs exactly when no text may hold the separator and no parameter name continues another of its template after an equals sign. |
| DigestBinding.PlainTextsBound | backend/app/services/whatsapp_broadcast_service.py:1758-1781 | Under that condition the joined text determines identity, version, draft, parameters, recipients, phones and events. |
| DigestBinding.ParametersNotBound | backend/app/services/whatsapp_broadcast_service.py:1732-1739 | Two drafts of one template with the names a and a=b whose parameters differ and whose joined texts are equal. |
| DigestBinding.ValuesNotBound | backend/app/services/whatsapp_broadcast_service.py:1714-1730 | Two drafts of one template with the names a and b, a separator inside a value, and equal joined texts. |
| Digest.TailUnique | backend/app/services/whatsapp_broadcast_service.py:1758-1781 | After a common heading, the joined text determines the separator-free parts that follow. |
| Payload.ReplaysIff | backend/app/services/whatsapp_message_service.py:734-776 | The rebuilt plan passes normalisation and the payload comparison with the stored message exactly when the template is replayable and the stored sender is the starter. |
| Payload.MediaHeaderWithoutMediaNeverReplays | backend/app/services/whatsapp_message_service.py:919-922 | Every template with a media header and no media is refused by normalisation for every message. |
| MessageRules.AcceptedIff | backend/app/services/whatsapp_message_service.py:874-936 | A request is accepted exactly when a template has both names, a broadcast message is a template for a recipient without a body, a person's has no recipient, a text says something and carries no file unless it is a template, other types carry one, and the file has a reference, a type and no negative size. |
| MessageRules.NormalizedColumns | backend/app/services/whatsapp_message_service.py:937-967 | What is kept of an accepted request: texts trimmed, every other column as given. |
| MessageRules.RepeatsIff | backend/app/services/whatsapp_message_service.py:734-776 | A stored message repeats a request exactly when no compared column differs. |
| Consent.BatchAgreesWithSingle | backend/app/services/whatsapp_consent_service.py:202-259 | The ranked batch lookup and the single lookup give the same event for every requested key. |
| Consent.RankOneIsCurrent | backend/app/services/whatsapp_consent_service.py:210-245 | Row number one of a key's partition is exactly the event that the single lookup takes. |
| Consent.Current | backend/app/services/whatsapp_consent_service.py:279-298 | The event found applies and is newer than every other applicable one; none is found only when none applies. |
| Consent.TakesEffect | backend/app/services/whatsapp_consent_service.py:75-96 | A CRM event takes effect when it is recorded, whatever times it carries, and an external one at the time it gives, when that is allowed. |
| Consent.CrmDecides | backend/app/services/whatsapp_consent_service.py:279-298 | When no stored event takes effect later, a CRM event decides from the moment it is recorded on. |
| Consent.ReplayIff | backend/app/services/whatsapp_consent_service.py:301-326 | A known event is a replay exactly when every compared column agrees, the effective time only when the request gives one. |
| Consent.ConsentLog.Append | backend/app/services/whatsapp_consent_service.py:68-187 | Every error in its order, and otherwise the log grows by one event with the validated effective time, or a replay that agrees in every compared column changes nothing; only a replay with an earlier clock can lack a current event. |
| SingleWorker.CompletesAfterCeil | backend/app/services/whatsapp_broadcast_service.py:649-799 | A worker alone whose calls do not raise completes n > 0 remaining recipients with exactly the ceil(n / batch size)-th call. |
| SingleWorker.CallSettlesOneBatch | backend/app/services/whatsapp_broadcast_service.py:649-799 | A call that does not raise settles exactly one batch, leaves nothing claimed, and completes the broadcast when nothing remains. |
| SingleWorker.BatchesAreCeil | backend/app/services/whatsapp_broadcast_service.py:704-717 | Counting batches one by one gives ceil(n / batch size). |
| SingleWorkerRuns.CallIsRun | backend/app/services/whatsapp_broadcast_service.py:649-799 | A call that does not raise is a run of the protocol: some sequence of actions of one idle worker ends in its database, so every theorem about runs holds of it. |
| SingleWorkerProgress.CallGoesThrough | backend/app/services/whatsapp_broadcast_service.py:649-799 | So it does when the template is replayable, the starter is active, the pending messages are the starter's and no conversation is someone else's or hidden. |
| SingleWorkerProgress.CallGoesIff | backend/app/services/whatsapp_broadcast_service.py:649-799 | A call goes through exactly when its command is new, it brings as many client ids as the read finds recipients, every conversation of its batch is available, and each recipient that is not blocked beforehand has a replayable template, the active starter's own message and a conversation that is not hidden. |
| SingleWorkerProgress.LinkAllIff | backend/app/services/whatsapp_broadcast_service.py:1421-1448 | Linking the conversations of a batch goes through exactly when each is available beforehand; those there are stay and the others are created. |
| SingleWorkerProgress.DispatchAllIff | backend/app/services/whatsapp_broadcast_service.py:1266-1327 | Dispatching claimed recipients one after the other goes through exactly when each passes at the start. |
| SingleWorkerProgress.PlanAdmittedIff | backend/app/services/whatsapp_message_service.py:308-399 | The message service admits the plan of a claimed recipient exactly when the template replays, the message is the active starter's and the conversation is not hidden. |
| SingleWorkerProgress.BenignCallSettlesOneBatch | backend/app/services/whatsapp_broadcast_service.py:649-799 | In such a world a call goes through and settles exactly one batch. |
| BroadcastModel.ClaimSound | backend/app/services/whatsapp_broadcast_service.py:721-753 | Claiming a sound ready recipient leaves it sound, in progress, with a pending message and the command as token. |
| BroadcastModel.RecoverSound | backend/app/services/whatsapp_broadcast_service.py:1504-1562 | Recovering a sound recipient in progress leaves it sound and no longer in progress. |
| BroadcastModel.ReconcileSound | backend/app/services/whatsapp_message_service.py:595-683 | Reconciling keeps a recipient sound and, when it applies, leaves it neither ready nor in progress; AnswerGives says which columns each answer gives. |
| BroadcastModel.AnswerGives | backend/app/services/whatsapp_message_service.py:595-683 | Answer by answer, the columns of the message and the status: unknown is stored as unknown with every time as it was, refused as a definitive failure with the earlier failure time, accepted with that external id, state and times. |
| BroadcastModel.SoundIsSpelledOut | backend/app/services/whatsapp_broadcast_projection_service.py:68-91 | What each status means: READ, DELIVERED, SENT and FAILED that state of the latest message, otherwise its dispatch state and the claim token decide. |
| BroadcastModel.NotifySound | backend/app/services/whatsapp_status_service.py:184-225 | A delivery status keeps a recipient sound. |
| BroadcastModel.RetrySound | backend/app/services/whatsapp_broadcast_service.py:918-941 | Retrying a failed recipient leaves it sound and ready. |
| BroadcastModel.FailedHasFailedMessage | backend/app/services/whatsapp_broadcast_service.py:905-915 | A failed recipient always has a failed latest message and a conversation, so the lookup of its message never fails. |
| BroadcastInvariant.ConfirmKeeps | backend/app/services/whatsapp_broadcast_service.py:559-617 | Confirming keeps the database invariant and freezes the inputs. |
| BroadcastInvariant.ClaimKeeps | backend/app/services/whatsapp_broadcast_service.py:667-769 | Claiming keeps the database invariant, and every claimed recipient has a message. |
| BroadcastInvariant.RetryAllKeeps | backend/app/services/whatsapp_broadcast_service.py:895-941 | Serving retry requests keeps everything except that a completed broadcast must resume. |
| BroadcastInvariant.CompleteKeeps | backend/app/services/whatsapp_broadcast_service.py:1564-1577 | Completing keeps the database invariant. |
| BroadcastRules.SelectedIff | backend/app/services/whatsapp_broadcast_service.py:362-380 | Each phone of a requested customer who is live and has one is selected, through the first request that has it. |
| BroadcastRules.SelectedOnly | backend/app/services/whatsapp_broadcast_service.py:362-380 | Each selected row is such a first request, with the phone the customer has. |
| BroadcastRules.TokenLivesTenMinutes | backend/app/services/whatsapp_broadcast_service.py:512-607 | With nothing else changed, a token confirms for ten minutes after its validation and no longer. |
| BroadcastRules.ClaimTakesLowest | backend/app/services/whatsapp_broadcast_service.py:700-717 | A claim takes at most one batch, only ready unlocked candidates, and leaves out one only when the batch is full of lower ids. |
| BroadcastRules.EligibleIff | backend/app/services/whatsapp_broadcast_service.py:1399-1419 | A recipient may be written to exactly when the customer is live with that phone and the newest event in force for both is an opt-in. |
| BroadcastRules.PreparedIff | backend/app/services/whatsapp_broadcast_service.py:1266-1327 | A recipient in progress is blocked for each of the three reasons, or gets a plan for its pending message, exactly under its own condition. |
| BroadcastRules.StartIff | backend/app/services/whatsapp_message_service.py:148-263 | A dispatch starts exactly for the latest, pending message of a recipient in progress who may be written to in its own conversation; otherwise the recipient is blocked, or left alone when the message is no longer pending. |
| BroadcastRules.RetryableIff | backend/app/services/whatsapp_broadcast_service.py:895-928 | A request is served exactly for a failed recipient with a conversation whose latest message was refused or reported failed and who may be written to. |
| BroadcastRules.RetryServesIff | backend/app/services/whatsapp_broadcast_service.py:895-945 | Of all requests exactly the recipients for whom one can be served get one more pending message, by the actor, under a requested id, naming the failed one; every other row is untouched. |
| BroadcastRules.CompletesIff | backend/app/services/whatsapp_broadcast_service.py:1564-1577 | A broadcast completes exactly when no recipient is ready or in progress, and the first completion time is kept. |
| BroadcastRules.DoneIsDone | backend/app/services/whatsapp_broadcast_service.py:1924-1933 | A command that left its audit changes nothing when it is repeated. |
| BroadcastEffects.ReplaceIff | backend/app/services/whatsapp_broadcast_service.py:328-437 | Replacing the recipients goes through exactly for a non-empty request on a draft of that version; the version moves, the token goes, and every row is fresh. |
| BroadcastEffects.EditIff | backend/app/services/whatsapp_broadcast_service.py:439-510 | Editing goes through exactly on a draft of that version, moves it, and takes the token away. |
| BroadcastEffects.ValidateIff | backend/app/services/whatsapp_broadcast_service.py:512-557 | A validation issues a token, for ten minutes, exactly when there are recipients, template and media are there, and every recipient may be written to. |
| BroadcastEffects.ConfirmIff | backend/app/services/whatsapp_broadcast_service.py:559-617 | A confirmation goes through exactly with the draft's version, its token in time, the same checks as a validation, and the digest that was validated. |
| BroadcastEffects.ConfirmedRows | backend/app/services/whatsapp_broadcast_service.py:571-617 | It makes every recipient ready and pins the opt-in in force for it, and changes no other column. |
| BroadcastEffects.LaunchIff | backend/app/services/whatsapp_broadcast_service.py:619-647 | Launching goes through exactly on a confirmed broadcast, and records who started it. |
| BroadcastEffects.LinkedIff | backend/app/services/whatsapp_broadcast_service.py:1421-1448 | For recipients of different phones: linking goes through exactly when every conversation is free or resolved to that customer, keeps those there are and adds a resolved one for each phone without. |
| BroadcastEffects.ClaimBatchRows | backend/app/services/whatsapp_broadcast_service.py:721-769 | A claimed recipient is in progress under the command since now, with the pending message it had, or a first one under an id its candidate brought, by the user who started the broadcast. |
| BroadcastEffects.ClaimBlocked | backend/app/services/whatsapp_broadcast_service.py:731-738 | A recipient whose latest message is no longer pending is blocked by the claim as already attempted, and keeps its messages. |
| BroadcastEffects.RetryIff | backend/app/services/whatsapp_broadcast_service.py:801-945 | A retry command puts the broadcast back to work exactly when it made a message, and audits how many. |
| BroadcastStore.LatestIsMaximum | backend/app/services/whatsapp_broadcast_projection_service.py:61-65 | The accumulated timestamp is one of the values, the greatest, and absent only when all are. |
| BroadcastStore.LatestTimestamp | backend/app/services/whatsapp_broadcast_projection_service.py:61-65 | The accumulator loop computes that timestamp. |
| BroadcastStore.RecipientRow.Recompute | backend/app/services/whatsapp_broadcast_projection_service.py:16-58 | Assigning the columns in place gives the projection of the recipient's messages. |
| BroadcastStore.RecipientRow.ClaimFor | backend/app/services/whatsapp_broadcast_service.py:721-753 | The row after a claim, and whether it was claimed or blocked. |
| BroadcastStore.RecipientRow.RecoverClaim | backend/app/services/whatsapp_broadcast_service.py:1526-1556 | The row after a recovery, branch by branch. |
| BroadcastStore.RecipientRow.ReconcileMessage | backend/app/services/whatsapp_message_service.py:609-683 | The row after the provider's answer is the reconciled recipient, whose columns AnswerGives states answer by answer; unchanged unless the message is in progress. |
| BroadcastStore.Store.SelectCustomers | backend/app/services/whatsapp_broadcast_service.py:362-380 | The selected customers in request order; every request is in exactly one list: unknown or deleted, without phone, a phone already selected, or selected. |
| BroadcastStore.Store.ReplaceSelection | backend/app/services/whatsapp_broadcast_service.py:328-437 | The whole database after replacing the recipients of a draft, or unchanged when refused. |
| BroadcastStore.Store.ConfirmSelection | backend/app/services/whatsapp_broadcast_service.py:559-617 | The whole database after a confirmation, or unchanged when refused. |
| BroadcastStore.Store.RecoverClaims | backend/app/services/whatsapp_broadcast_service.py:1253-1264 | The whole database after recovering stale claims, audits included; RecoveredIff states over the columns which recipients that changes. |
| BroadcastStore.Store.ClaimBatch | backend/app/services/whatsapp_broadcast_service.py:670-769 | The whole database after a claim and the claimed ids; unchanged when a conversation conflicts. |
| BroadcastStore.Store.LinkConversations | backend/app/services/whatsapp_broadcast_service.py:1421-1448 | The conversations found or created in order, or none when one belongs to someone else. |
| BroadcastStore.Store.BuildPlan | backend/app/services/whatsapp_broadcast_service.py:1266-1327 | The plan for a pending message, or the recipient blocked for the first reason that applies. |
| BroadcastStore.Store.StartRow | backend/app/services/whatsapp_message_service.py:148-263 | The message handed over, or the recipient blocked, or nothing when it is no longer pending. |
| BroadcastStore.Store.Admit | backend/app/services/whatsapp_message_service.py:308-399 | The message service admits a plan exactly when payload, conversation, customer and user are accepted. |
| BroadcastStore.Store.RetryRows | backend/app/services/whatsapp_broadcast_service.py:801-945 | The whole database after serving the retry requests one by one. |
| BroadcastStore.Store.Complete | backend/app/services/whatsapp_broadcast_service.py:1564-1577 | The broadcast completed when none remains, first completion kept. |
| BroadcastStore.Store.CountRemaining | backend/app/services/whatsapp_broadcast_service.py:1615-1627 | The number of recipients that are ready or in progress. |
| BroadcastStore.Store.Process | backend/app/services/whatsapp_broadcast_service.py:649-799 | One whole call of a worker that runs alone gives the database of the sequence of its transactions. |
| LedgerTheorems.HistoryIsAChain | backend/app/services/opportunity_service.py:723-774 | In every run the history of an opportunity is a chain of permitted transitions from NUEVA to its current status and entry time. |
| LedgerTheorems.LossesAndReopeningsAlternate | backend/app/services/opportunity_service.py:291-329 | LOST and REOPENED history rows of an opportunity take turns, LOST first. |
| LedgerTheorems.EverySwingHasOneEvent | backend/app/services/opportunity_service.py:776-829 | Every LOST row has exactly one loss event and every REOPENED row exactly one reopen event, and no other row has one. |
| LedgerTheorems.ReopeningNamesItsLoss | backend/app/services/opportunity_service.py:453-483 | A reopening names the loss just before it in the same opportunity, and no other reopening names that loss. |
| LedgerTheorems.LossSnapshotsAddUp | backend/app/services/opportunity_service.py:783-829 | Every loss total is the sum of its product snapshots, which are positive and in product order. |
| LedgerTheorems.StagesAgreeWithColumns | backend/app/services/opportunity_service.py:712-736 | COTIZADA, NEGOCIACION and GANADA have a quote, NUEVA has none, and a loss reason is present exactly in PERDIDA. |
| LedgerTheorems.OneActiveWhatsAppPerCustomer | backend/app/services/opportunity_service.py:497-511 | In every run two live active WhatsApp opportunities belong to different customers. |
| LedgerTheorems.OpenNoticesAreHonest | backend/app/services/notification_service.py:46-90 | Every open notice is the only one of its opportunity, which is open, not deleted, and was stale when the notice was raised. |
| LedgerTheorems.OpenNoticeMeansUnmoved | backend/app/services/notification_service.py:312-328 | While a notice stays open its opportunity gains no history row, keeps status and entry time and is not deleted. |
| LedgerTheorems.GenerationIsComplete | backend/app/services/notification_service.py:58-76 | After a generation every opportunity that is stale has an open notice. |
| LedgerTheorems.ReopenReplays | backend/app/services/opportunity_service.py:416-430 | Repeating a reopen command changes nothing; its id for another opportunity is refused. |
| LedgerTheorems.StaleEditIff | backend/app/services/opportunity_service.py:521-534 | An edit of a quote is refused as stale exactly when it expects a version that is not the current one. |
| LedgerTheorems.SecondQuoteEditIff | backend/app/services/opportunity_service.py:331-363 | In every run, of two edits that expect the same version the second is refused exactly when the clock had moved on from that version at the first. |
| LedgerRules.QuoteAcceptedIff | backend/app/services/opportunity_service.py:578-620 | A quote is accepted exactly when it has lines, positive quantities, no product twice, known products, and inactive ones only if quoted before; each error exactly under its condition; it then holds the quantity of each line and nothing else. |
| LedgerRules.CreateIff | backend/app/services/opportunity_service.py:90-125 | Creating goes through, or gives each error, exactly under its condition on the customer, the open WhatsApp opportunities and the users. |
| LedgerRules.CreatedRow | backend/app/services/opportunity_service.py:112-154 | The columns of the new opportunity and of its first history row, and nothing else. |
| LedgerRules.QuoteIff | backend/app/services/opportunity_service.py:156-189 | Quoting goes through, or gives each error, exactly under its condition. |
| LedgerRules.QuotedRow | backend/app/services/opportunity_service.py:156-189 | The opportunity stands in COTIZADA since then with exactly the given lines, one history row more, and its notices closed. |
| LedgerRules.AdvanceIff | backend/app/services/opportunity_service.py:191-241 | Negotiating from COTIZADA and winning from NEGOCIACION go through, or give each error, exactly under its condition. |
| LedgerRules.AdvancedRow | backend/app/services/opportunity_service.py:723-774 | The moved columns, one history row more, closed notices, and the same quote. |
| LedgerRules.RegressIff | backend/app/services/opportunity_service.py:243-289 | Moving back is one step, from GANADA or NEGOCIACION, and goes through, or gives each error, exactly under its condition. |
| LedgerRules.RegressedRow | backend/app/services/opportunity_service.py:243-289 | The moved columns, one history row more, closed notices, and the same quote. |
| LedgerRules.LoseIff | backend/app/services/opportunity_service.py:291-329 | Losing goes through, or gives each error, exactly under its condition; only OTRO takes a detail, of one to 500 characters. |
| LedgerRules.LostRow | backend/app/services/opportunity_service.py:776-829 | The columns of the loss event: stage, reason, detail, source, customer's name with company, province, actor and one snapshot per quoted product with its name and quantity; and the moved columns. |
| LedgerRules.EditIff | backend/app/services/opportunity_service.py:331-363 | Editing a quote goes through, or gives each error, exactly under its condition: the version, then the stage, then the lines. |
| LedgerRules.EditedRow | backend/app/services/opportunity_service.py:331-363 | The quote is exactly the given lines, the version moves, and nothing else does. |
| LedgerRules.DeleteIff | backend/app/services/opportunity_service.py:385-404 | A deletion is dated no earlier than the creation, keeps its first date, and closes the notices. |
| LedgerRules.ReopenIff | backend/app/services/opportunity_service.py:406-485 | Under a new command a reopening goes through, or gives each error, exactly under its condition. |
| LedgerRules.ReopenedRow | backend/app/services/opportunity_service.py:453-483 | The moved columns and one reopening that names the newest loss of the opportunity. |
| LedgerRules.UsedCommandIff | backend/app/services/opportunity_service.py:416-430 | A used command is answered as before exactly to the same request, by the same user. |
| LedgerRules.GenerationIff | backend/app/services/notification_service.py:46-90 | A generation gives one notice to exactly the live open opportunities that stand still for that many days and have none open. |
| LedgerRules.LostShowsItsLoss | backend/app/services/opportunity_service.py:291-329 | In every run a lost opportunity shows the reason, the detail and the time of its newest loss. |
| LedgerInvariant.StepKeeps | backend/app/services/opportunity_service.py:60-485 | Every operation keeps the ledger invariant and continues the ledger (append-only tables, resolved notices final). |
| LedgerInvariant.LoseKeeps | backend/app/services/opportunity_service.py:291-329 | Losing keeps the invariant: one more swing, paired with its loss event and snapshots. |
| LedgerInvariant.ReopenKeeps | backend/app/services/opportunity_service.py:406-485 | Reopening keeps the invariant: one more swing, naming the latest loss. |
| LedgerInvariant.RegressKeeps | backend/app/services/opportunity_service.py:243-289 | Moving back a stage keeps the invariant, a second active WhatsApp opportunity included. |
| LedgerInvariant.CreateKeeps | backend/app/services/opportunity_service.py:90-154 | Creating keeps the invariant: a new chain that starts in NUEVA. |
| LedgerInvariant.SnapshotsOrdered | backend/app/services/opportunity_service.py:786-792 | The snapshots list each quoted product once, in order, with its quantity and current name. |
| OpportunityStore.OpportunityRow.ReplaceQuote | backend/app/services/opportunity_service.py:633-661 | Deleting dropped lines and upserting the others leaves exactly the new quote. |
| OpportunityStore.Store.ValidateQuote | backend/app/services/opportunity_service.py:578-620 | The validated quote or the first error: empty, repeated, not positive, missing or inactive product. |
| OpportunityStore.Store.ActiveWhatsApp | backend/app/services/opportunity_service.py:497-511 | The live WhatsApp opportunity of that customer with the lowest id, other than the excluded; none exactly when there is none. |
| OpportunityStore.Store.CreateOpportunity | backend/app/services/opportunity_service.py:90-154 | The whole ledger after creating, or the error and no change. |
| OpportunityStore.Store.Quote | backend/app/services/opportunity_service.py:156-189 | The whole ledger after quoting, or the error and no change. |
| OpportunityStore.Store.AdvanceTo | backend/app/services/opportunity_service.py:191-241 | The whole ledger after moving to negotiation or winning, or the error and no change. |
| OpportunityStore.Store.RegressStage | backend/app/services/opportunity_service.py:243-289 | The whole ledger after moving back a stage, or the error and no change. |
| OpportunityStore.Store.MarkAsLost | backend/app/services/opportunity_service.py:291-329 | The whole ledger after a loss with its event and snapshots, or the error and no change. |
| OpportunityStore.Store.UpdateQuoteProducts | backend/app/services/opportunity_service.py:331-363 | The whole ledger after editing a quote, or the error and no change. |
| OpportunityStore.Store.SoftDeleteOpportunity | backend/app/services/opportunity_service.py:385-404 | The whole ledger after a soft delete, stale notices resolved. |
| OpportunityStore.Store.ReopenLost | backend/app/services/opportunity_service.py:406-485 | The whole ledger after a reopening, or the error or replay and no change. |
| OpportunityStore.Store.GenerateStaleNotices | backend/app/services/notification_service.py:46-90 | The whole ledger after a generation and how many notices it created. |
| LossStatistics.HistoryReconciles | backend/app/services/lost_opportunity_service.py:151-204 | For every filter and run: historical losses are the current, the reopened and the unreopened ones of deleted opportunities, in number and quantity. |
| LossStatistics.LossesPartition | backend/app/services/lost_opportunity_service.py:160-189 | Every loss is exactly one of current, reopened, and unreopened in a deleted opportunity. |
| LossStatistics.BreakdownsReconcile | backend/app/services/lost_opportunity_service.py:195-203 | For every filter, key and run: counts and quantities of the returned buckets by key and by product add up to the historical totals, products in increasing order. |
| LossStatistics.BucketsAddUp | backend/app/services/lost_opportunity_service.py:255-267 | Each key has one bucket with exactly the count and quantity of its events, and the buckets add up. |
| LossStatistics.SortedBucketsAddUp | backend/app/services/lost_opportunity_service.py:255-267 | As returned: keys strictly increase, each key of an event has one bucket with exactly its count and quantity, there are no others, and the buckets add up. |
| LossStatistics.TimelineIsChronological | backend/app/services/lost_opportunity_service.py:200-203 | The timeline, sorted by the written date, is in the order of the local dates, for years of four digits. |
| TextOrder.WrittenDatesDiffer | backend/app/services/lost_opportunity_service.py:202 | Different dates are written differently, so grouping by the text groups by the date. |
| TextOrder.WrittenDatesInOrder | backend/app/services/lost_opportunity_service.py:202 | Dates written as year, month and day are ordered as the dates are, for years of four digits. |
| LossStatistics.ProductBucketsAddUp | backend/app/services/lost_opportunity_service.py:270-292 | Each product has one bucket with exactly the number and the weight of its snapshots, under the name of the first; they add up to the loss totals when each is the sum of its snapshots. |
| LossStatistics.SortedProductsAddUp | backend/app/services/lost_opportunity_service.py:270-292 | As returned: ids strictly increase, and the buckets are exactly those of the products that have a snapshot. |
| LossStatistics.CollectEvents | backend/app/services/lost_opportunity_service.py:255-267 | The dictionary loop and the sort give those buckets in key order. |
| LossStatistics.CollectProducts | backend/app/services/lost_opportunity_service.py:270-292 | The nested loop and the sort give the product buckets in product order. |
| LossStatistics.Compute | backend/app/services/lost_opportunity_service.py:151-204 | All fields of the statistics for a filter, buckets in key order. |
| LossStatistics.ReasonKeyIff | backend/app/services/lost_opportunity_service.py:195 | Each text of the breakdown by reason stands for exactly its reason. |
| LossStatistics.SourceKeyIff | backend/app/services/lost_opportunity_service.py:197 | Each text of the breakdown by source stands for exactly its source. |
| LossStatistics.ProvinceKeyIff | backend/app/services/lost_opportunity_service.py:198-200 | A province is its own key; the key of no province stands for the losses without one, and for a province of that very name. |
| LossStatistics.SameKeyCounts | backend/app/services/lost_opportunity_service.py:255-267 | A bucket counts exactly the losses that a text of the key stands for. |
| LossWorkspace.WorkspaceReadOnce | backend/app/services/lost_opportunity_service.py:89-149 | Reading the workspace page by page gives exactly the current losses of the ledger that pass the filter, newest first, each once, and as many as the statistics count as current. |
| LossWorkspace.WorkspaceCanBeRead | backend/app/services/lost_opportunity_service.py:121-149 | Passing the cursors of the workspace back comes to an end. |
| LossWorkspace.LostOpportunityHasOneRow | backend/app/services/lost_opportunity_service.py:96-112 | In every run each live lost opportunity has exactly one current loss, its newest. |
| ImportTheorems.CommitSucceedsIff | backend/app/services/customer_import_service.py:208-232 | With customers unchanged since a valid preview, a commit in any order succeeds exactly when every enriching row has a field to fill that no row visited before gives to the same customer. |
| ImportTheorems.DistinctCustomersCommit | backend/app/services/customer_import_service.py:363-388 | When no two rows resolve to the same customer, every order commits. |
| ImportTheorems.FreshPreviewAfterCommit | backend/app/services/customer_import_service.py:314-361 | After a commit in any order a fresh preview finds every row with an identity unchanged and would create the others. |
| ImportTheorems.PreviewRejectedByItsOwnCommit | backend/app/services/customer_import_service.py:383-385 | Two rows that match one customer by e-mail and by phone: a valid preview that its own commit rejects in both orders. |
| ImportTheorems.CommitOnlyFills | backend/app/services/customer_profile_service.py:36-56 | Whatever the customers and rows, a commit only adds customers and fills missing fields, each from a row that targets the customer; what a customer has is never overwritten. |
| ImportTheorems.CommitReplays | backend/app/services/customer_import_service.py:190-199 | Repeating a commit changes nothing, another command is refused, and there is one result per row. |
| ImportTheorems.DryRunReplays | backend/app/services/customer_import_service.py:94-114 | A preview changes no customer, repeating it finds the same batch, and another file under its id is refused. |
| ImportStability.ValidPreviewFits | backend/app/services/customer_import_service.py:314-361 | A preview without errors fits its customers and its rows share no identity. |
| ImportStability.CommitAllIff | backend/app/services/customer_import_service.py:208-232 | Row by row: the commit succeeds exactly when every row still fills something, and what every field then holds. |
| ImportStability.SameMatches | backend/app/services/customer_identity_service.py:91-146 | Rows applied before do not change which customers a row without a common identity matches. |
| ImportStability.ParsedIsWellFormed | backend/app/services/customer_import_service.py:262-312 | A parsed row without an issue has trimmed fields, a normal e-mail and a matchable phone; ParsedColumns says from which column each comes. |
| ImportColumns.ParsedColumns | backend/app/services/customer_import_service.py:277-282 | For a record of five columns of accepted length each field is the normal form of its own column: name, company, e-mail in lower case, phone, province. |
| ImportColumns.ParsedKey | backend/app/services/customer_identity_service.py:27-38 | The phone is matched without its separators exactly when it has seven digits or more. |
| ImportColumns.IssueIff | backend/app/services/customer_import_service.py:262-312 | Each issue code exactly under its condition on the columns, in the order shape, name, e-mail, phone. |
| ImportColumns.CreatedHoldsRecord | backend/app/services/customer_import_service.py:208-232 | After the whole commit, the customer that a creating row made holds exactly the values of its record. |
| ImportColumns.ImportedEndToEnd | backend/app/services/customer_import_service.py:94-232 | The same through the service: preview the records, commit the batch, and look at the customer of the row's result. |
| ImportPreview.PreviewIff | backend/app/services/customer_import_service.py:314-361 | A parsed row is a duplicate exactly when another row of the file shares its e-mail or phone, deleted or ambiguous exactly by the customers it matches, and otherwise creates, enriches or leaves the one it matches as the fields that customer lacks decide. |
| ImportPreview.RefusedRowStays | backend/app/services/customer_import_service.py:314-361 | A row that did not parse stays the error it was. |
| ImportPreview.AppliesIff | backend/app/services/customer_import_service.py:363-388 | Whatever became of the customers since the preview, a row applies exactly when it still matches as it did and still fills or does not; no other customer changes. |
| CustomerIdentity.ResolveByQueries | backend/app/services/customer_identity_service.py:91-109 | The e-mail query, the phone query and the classification give the active and deleted matches in id order. |
| CustomerIdentity.StoredEmailMatches | backend/app/services/customer_identity_service.py:111-124 | A stored normal e-mail is matched by itself and nothing else. |
| CustomerIdentity.StoredPhoneMatches | backend/app/services/customer_identity_service.py:126-146 | A stored phone is matched by its own comparable form and nothing else. |
| CustomerIdentity.MissingPhoneMatchesNothing | backend/app/services/customer_identity_service.py:27-38 | A blank stored phone matches no comparable phone. |
| Trimming.StripIsNormal | backend/app/services/customer_identity_service.py:15-19 | Trimming gives the text between the white space at both ends, which starts and ends with none, and nothing exactly when there is nothing else. |
| Trimming.NormalTextUnique | backend/app/services/customer_identity_service.py:15-19 | A text has one such normal form. |
| CustomerImportStore.CustomerRow.FillMissing | backend/app/services/customer_profile_service.py:36-72 | Going through the fields fills the missing ones and tells whether it would have. |
| CustomerImportStore.ImportStore.CountIdentities | backend/app/services/customer_import_service.py:315-320 | The dictionary holds the number of occurrences of every identity. |
| CustomerImportStore.ImportStore.PreviewRows | backend/app/services/customer_import_service.py:314-361 | The classified rows, duplicates within the file included. |
| CustomerImportStore.ImportStore.CommitRows | backend/app/services/customer_import_service.py:208-221 | The customers and results after applying all rows; when one no longer fits, a refusal and the customers as they were. |
| Metrics.Timeline | backend/app/services/metrics_service.py:546-637 | For every filter, period and granularity: refused exactly when too large; otherwise as many rows as requested, strictly increasing, each with exactly what falls in it, and columns that add up to the overview, which WonFromHistory, CreatedFromHistory and LostFromEvents state from the ledger. |
| Metrics.WonKgAgrees | backend/app/services/metrics_service.py:928-938 | Summing won lines directly, as the overview does, and summing whole opportunities, as the timeline does, give the same weight. |
| MetricsHistory.WonFromHistory | backend/app/services/metrics_service.py:209-276 | For every ledger run and any order of its quote lines: won is the number of live opportunities of interest whose last history row enters GANADA within the period, and its weight the sum of what their quotes hold of the product of interest. |
| MetricsHistory.CreatedFromHistory | backend/app/services/metrics_service.py:201-224 | For every ledger run: created is the number of live opportunities of interest whose first history row is within the period. |
| MetricsHistory.LostFromEvents | backend/app/services/metrics_service.py:226-250 | For every ledger run: lost is the number of loss events within the period of live opportunities of interest, and its weight the sum of what their snapshots hold of the product of interest. |
| MetricsHistory.ProvinceIff | backend/app/services/metrics_service.py:872-876 | A stored province is the wanted one exactly when they are equal but for case, without the spaces around the stored and the white space around the wanted one. |
| Metrics.GroupsAddUp | backend/app/services/metrics_service.py:565-620 | Grouping by distinct keys that cover all rows loses neither rows nor weight. |
| Metrics.ProductsConserveIff | backend/app/services/metrics_service.py:339-368 | For any order of the grouped rows, the dictionary by product id keeps the whole weight exactly when no id has two names, and never exceeds it. |
| MetricsTheorems.ProductsMatchOverviewIff | backend/app/services/metrics_service.py:297-406 | In every ledger that can arise, lost weight by product equals the overview's exactly when no product id was lost under two names. |
| MetricsTheorems.RenamedProductLosesWeight | backend/app/services/metrics_service.py:368 | A run of the services that renames a product between two losses: the overview has the whole lost weight and the products have less, however the rows are grouped. |
| MetricsTheorems.RenamedProductIsGrouped | backend/app/services/metrics_service.py:339-368 | In that run the two names are two grouped rows and the second is what is left. |
| Metrics.CollectByProduct | backend/app/services/metrics_service.py:367-368 | The dictionary by product id after all grouped rows, later rows replacing earlier ones. |
| Calendar.PeriodBuckets | backend/app/services/metrics_service.py:988-1015 | As many buckets as the size check requests, strictly increasing, consecutive, and every moment of the period falls in one. |
| Calendar.RequestedIsIndexRange | backend/app/services/metrics_service.py:1017-1048 | The size check counts the buckets from the first to the last, at each granularity. |
| Calendar.OrdinalOrder | backend/app/services/metrics_service.py:1003 | Dates and their day numbers are ordered alike. |
| Calendar.OrdinalRoundTrip | backend/app/services/metrics_service.py:993-996 | Converting a date to its day number and back gives the date. |
| Calendar.NextHasNextIndex | backend/app/services/metrics_service.py:1051-1054 | Stepping to the next day, Monday or first of a month reaches the next bucket and skips none. |
| CivilDays.NextDayIsNext | backend/app/services/metrics_service.py:993-996 | The day after a date is the next one of its month or the first of the next month or year, by the lengths of the months. |
| CivilDays.FirstDay | backend/app/services/metrics_service.py:25-26 | The first of January 1970 was a Thursday, and its business day began at three in the morning of UTC. |
| CivilDays.DayLater | backend/app/services/metrics_service.py:975-986 | The same moment a day later is on the next business date, one weekday on. |
| CivilDays.BucketIs | backend/app/services/metrics_service.py:975-986 | The bucket of a date is itself, the Monday at most six days before, or the first of its month. |
| CivilDays.AcceptedIff | backend/app/services/metrics_service.py:1017-1048 | The limits of a timeline: 366 days, 5200 weeks or 1200 months. |
| Inbox.IndexAgreesWithLog | backend/app/services/whatsapp_projection_service.py:17-67 | In every run, after every step, waiting, waiting since and last reply equal their definition over all messages and the handled marker, a definition that LastReplyOverColumns and WaitingOverColumns state column by column. |
| InboxTheorems.LastReplyOverColumns | backend/app/services/whatsapp_projection_service.py:24-34 | In every run the last reply is the greatest accepted time among the messages that are outbound, accepted, by a person, of human origin, with a delivery state that is not failed. |
| InboxTheorems.ImpersonalNeverAnswers | backend/app/services/whatsapp_projection_service.py:24-33 | In every run accepting a broadcast message or one without a sender, or any later status of it, leaves waiting, waiting since and last reply as they were. |
| InboxTheorems.WaitingOverColumns | backend/app/services/whatsapp_projection_service.py:36-67 | In every run the conversation waits exactly when an inbound message past the marker is not covered by the last reply, by its own time or, once handled, by its arrival; since the earliest of them. |
| InboxTheorems.HandlingMarks | backend/app/services/whatsapp_conversation_service.py:62-87 | In every run handling moves the marker to the newest inbound message exactly when the conversation waits. |
| InboxTheorems.UnreadSinceRead | backend/app/services/whatsapp_conversation_service.py:45-60 | In every run the unread count is the number of inbound messages received since the conversation was last read. |
| InboxTheorems.LastTimesAreGreatest | backend/app/services/whatsapp_inbound_service.py:217-225 | In every run the last inbound time and the last message time are the greatest of their kind in the log. |
| InboxTheorems.ReceptionIff | backend/app/services/whatsapp_inbound_service.py:308-355 | A message is new exactly when no stored one has its external id; otherwise a replay exactly when that one is inbound with the same body and provider time. |
| InboxTheorems.MessagesWentThrough | backend/app/services/whatsapp_message_service.py:595-683 | In every run an outbound message is dispatched only by a start, settled only by the answer to it, and reported only once it is accepted. |
| Inbox.StepAgrees | backend/app/services/whatsapp_message_service.py:649-683 | Also the steps that do not rebuild the index leave it right. |
| Inbox.LastReplyIsLatest | backend/app/services/whatsapp_projection_service.py:24-34 | The last reply is the latest accepted time of a valid reply, absent only when there is none. |
| Inbox.WaitingIsEarliest | backend/app/services/whatsapp_projection_service.py:36-62 | Waiting starts at the earliest unanswered inbound message, and there is none exactly when not waiting. |
| Inbox.HandlingEndsWaiting | backend/app/services/whatsapp_conversation_service.py:62-87 | Marking as handled never meets a waiting conversation without inbound messages, and ends the waiting. |
| Inbox.InboundWaitsIff | backend/app/services/whatsapp_inbound_service.py:188-235 | A new inbound message makes the conversation wait exactly when it did already or no reply covers it, by its own time or, once handled, by its arrival. |
| Inbox.NewInboundAfterHandling | docs/specs/056-whatsapp-manual-handled-state.md:58 | After handling, a new inbound message makes the conversation wait exactly when that condition holds. |
| Inbox.NewInboundNeedNotWait | docs/specs/056-whatsapp-manual-handled-state.md:58 | A concrete run: after handling, a new inbound message does not make the conversation wait, because the reply's time is ahead of its own time and its arrival. |
| Inbox.LateInbound | backend/app/services/whatsapp_projection_service.py:48-58 | A message older than the last reply that arrives after it waits exactly when the conversation was once handled. |
| Inbox.ArrivalOrderDoesNotMatter | backend/app/services/whatsapp_inbound_service.py:188-235 | With no handled marker, the same new inbound messages give the same index in whatever order they arrive. |
| Inbox.AcceptedWithoutStateIsNoReply | backend/app/services/whatsapp_projection_service.py:31-32 | An accepted reply without a delivery state leaves the index as it was. |
| Inbox.ReplyAnswers | backend/app/services/whatsapp_message_service.py:595-647 | A reply accepted at a time answers every inbound message up to it, except those that arrived later, after the marker. |
| Inbox.FailedReplyReopens | backend/app/services/whatsapp_status_service.py:184-225 | A reply reported failed is no longer the one that counts. |
| InboxStore.ConversationRow.Recompute | backend/app/services/whatsapp_projection_service.py:17-67 | The two passes over the log assign exactly the defined fields: the greatest accepted time over the five columns of a reply, and the waiting that LastReplyOverColumns and WaitingOverColumns spell out. |
| InboxStore.ConversationRow.ReceiveMessage | backend/app/services/whatsapp_inbound_service.py:95-249 | A new message is appended and the index rebuilt; one with a known external id is a replay exactly when the stored message is inbound and agrees in what is compared, and is refused otherwise, the conversation unchanged. |
| InboxStore.ConversationRow.MarkAsRead | backend/app/services/whatsapp_conversation_service.py:45-60 | The unread count is cleared; the index, not rebuilt, is still right. |
| InboxStore.ConversationRow.MarkAsHandled | backend/app/services/whatsapp_conversation_service.py:62-87 | The marker at the latest inbound message, the index right, and the conversation not waiting. |
| InboxStore.ConversationRow.Accept | backend/app/services/whatsapp_message_service.py:595-647 | The conversation after an accepted reply. |
| InboxStore.ConversationRow.PrepareOutbound | backend/app/services/whatsapp_message_service.py:411-428 | One more pending message; the index, not rebuilt, is still right. |
| InboxStore.ConversationRow.StartDispatch | backend/app/services/whatsapp_message_service.py:251-263 | The message in progress, nothing when it is not pending; the index, not rebuilt, is still right. |
| InboxStore.ConversationRow.ApplyStatus | backend/app/services/whatsapp_status_service.py:184-225 | The conversation after a delivery status of a message with an external id. |
| InboxStore.ConversationRow.Fail | backend/app/services/whatsapp_message_service.py:649-683 | A refused or unknown reply; the index, not rebuilt, is still right. |
| KeysetPages.PagesAreTheSortedList | backend/app/services/opportunity_note_service.py:192-235 | Following the cursors from none to the end gives the sorted list and as many pages as it needs. |
| KeysetPages.FollowingEnds | backend/app/services/opportunity_note_service.py:222-235 | Following the cursors comes to an end. |
| KeysetPages.SortedIncreases | backend/app/services/opportunity_note_service.py:192-197 | The sorted list is increasing and holds every row once. |
| PageCursors.FiltersFollowOrders | backend/app/services/opportunity_note_service.py:205-221 | The note filter and the loss filter select exactly what comes after the cursor in their orders. |
| PageCursors.NotesReadOnce | backend/app/services/opportunity_note_service.py:160-235 | A client that passes the text cursors back reads every note once, in order. |
| PageCursors.NotesReadAsKeys | backend/app/services/opportunity_note_service.py:198-235 | Reading by text cursors gives exactly the pages of following the keys they stand for. |
| PageCursors.NotesReadingEnds | backend/app/services/opportunity_note_service.py:222-235 | Passing the text cursors of notes back comes to an end. |
| PageCursors.LossesReadOnce | backend/app/services/lost_opportunity_service.py:104-149 | A client that passes the text cursors back reads every current loss once, newest first. |
| PageCursors.LossesReadingEnds | backend/app/services/lost_opportunity_service.py:121-149 | Passing the text cursors of losses back comes to an end. |
| PageCursors.NoteCursorRoundTrip | backend/app/services/opportunity_note_service.py:329-344 | Decoding a note cursor gives back the key it was made from. |
| PageCursors.LossCursorRoundTrip | backend/app/services/lost_opportunity_service.py:295-313 | Decoding a loss cursor gives back the key it was made from, and no cursor is empty. |
| Base64Url.UnpaddedRoundTrip | backend/app/services/opportunity_note_service.py:329-336 | Base 64 with the padding removed and put back decodes to the same bytes. |
| Base64Url.PadBitsAreZero | backend/app/services/opportunity_note_service.py:329-331 | The bits that pad an incomplete group are zero, so with the round trip every text is the one of RFC 4648. |
| Base64Url.DecodableIff | backend/app/services/opportunity_note_service.py:334-337 | Exactly whole groups of the URL-safe alphabet with at most two padding characters at the end are decoded. |
| OpportunityNotes.RunKeeps | backend/app/services/opportunity_note_service.py:50-158 | In every run the revisions of a note are numbered from one without a gap, each changes something, and command ids are unique. |
| OpportunityNotes.SecondEditConflicts | backend/app/services/opportunity_note_service.py:140-143 | Of two edits that expect the same revision the second is refused. |
| OpportunityNotes.EveryNoteListed | backend/app/services/opportunity_note_service.py:171-190 | Each note of an opportunity is listed under its newest revision. |
| OpportunityNotes.NotesListedOnce | backend/app/services/opportunity_note_service.py:160-235 | Reading an unchanged notebook page by page gives each current note once, in order. |
| OpportunityNotes.NotesListingEnds | backend/app/services/opportunity_note_service.py:160-235 | Reading the notes of an opportunity page by page comes to an end. |
| NoteRules.BodyIff | backend/app/services/opportunity_note_service.py:320-326 | A body becomes the text of one to 20000 characters between white space after carriage returns became line feeds; it is refused exactly when there is none. |
| NoteRules.CreateIff | backend/app/services/opportunity_note_service.py:50-96 | Creating goes through, gives each error, or repeats, exactly under its condition on the columns of the stored revision. |
| NoteRules.CreatedNote | backend/app/services/opportunity_note_service.py:79-96 | The columns of the new note and of its first revision, and nothing else. |
| NoteRules.RepeatedRevisionIff | backend/app/services/opportunity_note_service.py:111-129 | A used command is answered as before exactly when it names that note, opportunity, actor and revision, and the text and pin it gives, if any, agree. |
| NoteRules.ReviseIff | backend/app/services/opportunity_note_service.py:98-158 | Under a new command a revision goes through exactly when it expects the newest one and changes its text or pin; each error exactly under its condition. |
| NoteRules.RevisedNote | backend/app/services/opportunity_note_service.py:143-158 | The columns of the new revision: numbered next, with what the request gives and the rest as it was. |
| NoteRules.ListedIff | backend/app/services/opportunity_note_service.py:171-204 | Listed are exactly the notes of the opportunity whose newest revision has the wanted pin, under that revision. |
| NoteRules.ListingInOrder | backend/app/services/opportunity_note_service.py:160-235 | Reading page by page shows exactly those notes, pinned ones first, then by time and id, newest first. |
| NoteStore.Store.Create | backend/app/services/opportunity_note_service.py:50-96 | The whole notebook after creating, or the error or replay and no change. |
| NoteStore.Store.Revise | backend/app/services/opportunity_note_service.py:98-158 | The whole notebook after a revision, or the error or replay and no change. |

## Left out

- One broadcast at a time: other broadcasts, direct messages and imports act on it only through the environment's changes of customers, consents, conversations and users.
- Row and advisory locks are not modelled as such; a transaction is atomic, and rows skipped because another transaction holds them are an arbitrary set given to the step.
- Identifiers: a recipient is named by its position, a message by its recipient and rank, a conversation by its unique phone key; random command and client ids are parameters, and tokens are issued once.
- The digest's hash is taken to be injective, so the digest is the joined text.
- SingleWorker.CompletesAfterCeil: speaks of calls that do not raise; SingleWorkerProgress.CallGoesIff says exactly which do not.
- Columns without consequence here: updated_at of broadcasts, display names, safe error texts, lists of customers without consent, broadcast creation and its parameter checks.
- Delivery statuses are any state and evidence for a message that has an external id; the order rules of `whatsapp_status_service` are not part of this model.
- Template availability, media checks and the provider's answer are inputs; the catalogue, the stores and HTTP are not part of this model.
- Text: white space and letter case are ASCII; the e-mail format check and the text search are parameters or omitted.
- CSV splitting and the file-level checks of an import are not part of this model; a preview starts from parsed records.
- Timestamp check constraints of the tables (entry after creation, resolution after creation) are not modelled; backdated times passed by callers are allowed.
- Stale notices are generated in one atomic step; the race between two generations that the unique index settles is not modelled, and the new-lead notice, reading, deleting and recipients of notices are left out.
- Legendary status, assignment of users and lead intake: no effect on the properties here.
- The loss workspace's filters are one arbitrary predicate on loss events.
- Metrics: open and quoted figures, conversion rates, sources and provinces; the business timezone is three hours behind UTC all year, and dates are not limited to years 1 to 9999.
- Metrics.Timeline: holds for any table of quote lines; MetricsHistory.WonFromHistory is about the ones that hold the quotes of the ledger.
- PageCursors.NotesReadOnce: writing and reading a time is a library pair that is asked to be inverse, ASCII and free of the separator; pages are read from one snapshot.
- Base64Url.DecodableIff: a cursor that no service wrote may hold characters outside the alphabet, which the library drops before it decodes and the model refuses.
- Inbox: opening windows, attachments, conversation creation and opportunity links are not part of this model.
- Queries that only list or aggregate, routers, authentication, migrations and the frontend.
