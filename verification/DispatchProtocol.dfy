/**
 The dispatch protocol: any number of workers run process_batch and the message service's send
 as sequences of transactions, interleaved with each other, with operators editing, confirming
 and retrying the broadcast, and with an environment that changes customers, consents,
 conversations and delivery states. A worker may stop between any two transactions.
 */
module DispatchProtocol {
  import opened Wrappers
  import opened BroadcastModel
  import opened BroadcastTransactions
  import Consent
  import Payload
  import Digest

  type WorkerId = nat

  /** What a dispatch saw when it started, kept with the provider call it leads to. */
  datatype Start = Start(ref: MessageRef, key: Consent.Key, at: Time, consents: nat, owner: Option<Customer>)

  /** Where a worker stands. `queue` holds the claimed recipients it has yet to process. */
  datatype Worker =
    | Idle
    | Reading(command: Uuid, candidates: seq<Candidate>)
    | Draining(queue: seq<RecipientId>)
    | Holding(plan: Plan, queue: seq<RecipientId>)
    | Admitted(ref: MessageRef, queue: seq<RecipientId>)
    | Dispatching(start: Start, queue: seq<RecipientId>)
    | Answering(ref: MessageRef, answer: Answer, queue: seq<RecipientId>)

  /** A validation that issued a token: the inputs it looked at. */
  datatype Validation = Validation(token: Uuid, draft: Digest.Draft, selections: seq<Digest.Selection>,
                                   events: seq<nat>)

  /**
   `handed` is the history of dispatches that started, `calls` of provider calls and `validations`
   of issued tokens.
   */
  datatype System = System(db: Database, workers: map<WorkerId, Worker>, handed: seq<Start>, calls: seq<Start>,
                           validations: seq<Validation>)

  datatype Action =
    // Operators
    | DoReplaceRecipients(command: Uuid, ids: seq<CustomerId>, version: nat)
    | DoUpdateDraft(draft: Digest.Draft, template: Payload.Template, version: nat)
    | DoValidate(version: nat, checks: Checks, token: Uuid, now: Time)
    | DoConfirm(command: Uuid, version: nat, token: Uuid, checks: Checks, actor: UserId, now: Time)
    | DoLaunch(command: Uuid, actor: UserId)
    | DoRetry(command: Uuid, requests: seq<RetryRequest>, actor: UserId, templateAvailable: bool, now: Time)
    // Workers
    | DoRecover(now: Time, locked: set<RecipientId>)
    | DoRead(worker: WorkerId, command: Uuid, clientIds: seq<Uuid>)
    | DoClaim(worker: WorkerId, now: Time, locked: set<RecipientId>)
    | DoPrepare(worker: WorkerId, templateAvailable: bool, now: Time)
    | DoAdmit(worker: WorkerId, ref: MessageRef)
    | DoStart(worker: WorkerId, now: Time)
    | DoCall(worker: WorkerId, answer: Answer)
    | DoReconcile(worker: WorkerId, now: Time)
    | DoFinish(worker: WorkerId, now: Time)
    | Crash(worker: WorkerId)
    // Environment
    | DeliveryStatusReceived(ref: MessageRef, provider: ProviderState, evidence: Evidence)
    | CustomerChanged(id: CustomerId, customer: Customer)
    | ConsentRecorded(event: Consent.Event)
    | ConversationChanged(phone: Phone, conversation: Conversation)
    | UsersChanged(activeUsers: set<UserId>)

  function At(s: System, w: WorkerId): Worker {
    if w in s.workers then s.workers[w] else Idle
  }

  function Move(s: System, w: WorkerId, worker: Worker): System {
    s.(workers := s.workers[w := worker])
  }

  /** A raising transaction changes nothing. */
  function Try(s: System, db: Option<Database>): System {
    if db.None? then s else s.(db := db.value)
  }

  predicate TokenIssued(s: System, token: Uuid) {
    exists i | 0 <= i < |s.validations| :: s.validations[i].token == token
  }

  /** Tokens are random: one that was issued before is not issued again. */
  function StepValidate(s: System, version: nat, checks: Checks, token: Uuid, now: Time): System {
    var db := Validate(s.db, version, checks, token, now);
    if db.None? || TokenIssued(s, token) then s
    else if !ValidSnapshot(s.db, checks, now) then s.(db := db.value)
    else s.(db := db.value,
            validations :=
              s.validations + [Validation(token, s.db.broadcast.draft, Selections(s.db), ConsentEvents(s.db, now))])
  }

  /** The read that precedes a claim: up to two batches of ready recipients, with fresh client ids. */
  function StepRead(s: System, w: WorkerId, command: Uuid, clientIds: seq<Uuid>): System {
    var ready := ReadyFrom(s.db.recipients, 0, 2 * s.db.settings.batchSize, {});
    if !At(s, w).Idle? || |clientIds| != |ready| then s
    else Move(s, w, Reading(command, seq(|ready|, i requires 0 <= i < |ready| => Candidate(ready[i], clientIds[i]))))
  }

  function StepClaim(s: System, w: WorkerId, now: Time, locked: set<RecipientId>): System {
    if !At(s, w).Reading? then s
    else if CommandExists(s.db, At(s, w).command) then Move(s, w, Idle)
    else
      var claim := ClaimRecipients(s.db, At(s, w).command, At(s, w).candidates, now, locked);
      if claim.None? then Move(s, w, Idle)
      else Move(s.(db := claim.value.db), w, Draining(claim.value.ids))
  }

  function StepPrepare(s: System, w: WorkerId, templateAvailable: bool, now: Time): System {
    var worker := At(s, w);
    if !worker.Draining? || worker.queue == [] then s
    else
      match PrepareDispatch(s.db, worker.queue[0], templateAvailable, now)
      case Raises => Move(s, w, Idle)
      case Skip(db) => Move(s.(db := db), w, Draining(worker.queue[1..]))
      case Dispatch(db, plan) => Move(s.(db := db), w, Holding(plan, worker.queue[1..]))
  }

  /** `ref` is the row that the lookup by client id returns. */
  function StepAdmit(s: System, w: WorkerId, ref: MessageRef): System {
    var worker := At(s, w);
    if !worker.Holding? || !ValidRef(s.db, ref) || MessageAt(s.db, ref).row.clientId != worker.plan.input.clientId
    then s
    else if !Admits(s.db, worker.plan, ref) then Move(s, w, Idle)
    else if !MessageAt(s.db, ref).dispatch.Pending? then Move(s, w, Draining(worker.queue))
    else Move(s, w, Admitted(ref, worker.queue))
  }

  function StartOf(db: Database, ref: MessageRef, now: Time): Start
    requires ValidRef(db, ref)
  {
    var r := db.recipients[ref.recipient];
    Start(ref, ConsentKey(r), now, |db.consents|,
          if r.customer in db.customers then Some(db.customers[r.customer]) else None)
  }

  function StepStart(s: System, w: WorkerId, now: Time): System {
    var worker := At(s, w);
    if !worker.Admitted? || !ValidRef(s.db, worker.ref) then s
    else
      match StartDispatch(s.db, worker.ref, now)
      case NotStarted(db) => Move(s.(db := db), w, Draining(worker.queue))
      case Handed(db) =>
        var start := StartOf(s.db, worker.ref, now);
        Move(s.(db := db, handed := s.handed + [start]), w, Dispatching(start, worker.queue))
  }

  function StepCall(s: System, w: WorkerId, answer: Answer): System {
    var worker := At(s, w);
    if !worker.Dispatching? then s
    else Move(s.(calls := s.calls + [worker.start]), w, Answering(worker.start.ref, answer, worker.queue))
  }

  function StepReconcile(s: System, w: WorkerId, now: Time): System {
    var worker := At(s, w);
    if !worker.Answering? || !ValidRef(s.db, worker.ref) then s
    else Move(s.(db := ReconcileAnswer(s.db, worker.ref, worker.answer, now)), w, Draining(worker.queue))
  }

  function StepFinish(s: System, w: WorkerId, now: Time): System {
    if At(s, w) != Draining([]) then s
    else Move(s.(db := CompleteIfIdle(s.db, now)), w, Idle)
  }

  function Step(s: System, a: Action): System {
    match a
    case DoReplaceRecipients(command, ids, version) => Try(s, ReplaceRecipients(s.db, command, ids, version))
    case DoUpdateDraft(draft, template, version) => Try(s, UpdateDraft(s.db, draft, template, version))
    case DoValidate(version, checks, token, now) => StepValidate(s, version, checks, token, now)
    case DoConfirm(command, version, token, checks, actor, now) =>
      Try(s, Confirm(s.db, command, version, token, checks, actor, now))
    case DoLaunch(command, actor) => Try(s, Launch(s.db, command, actor))
    case DoRetry(command, requests, actor, templateAvailable, now) =>
      Try(s, RetryFailed(s.db, command, requests, actor, templateAvailable, now))
    case DoRecover(now, locked) => s.(db := RecoverStaleClaims(s.db, now, locked))
    case DoRead(w, command, clientIds) => StepRead(s, w, command, clientIds)
    case DoClaim(w, now, locked) => StepClaim(s, w, now, locked)
    case DoPrepare(w, templateAvailable, now) => StepPrepare(s, w, templateAvailable, now)
    case DoAdmit(w, ref) => StepAdmit(s, w, ref)
    case DoStart(w, now) => StepStart(s, w, now)
    case DoCall(w, answer) => StepCall(s, w, answer)
    case DoReconcile(w, now) => StepReconcile(s, w, now)
    case DoFinish(w, now) => StepFinish(s, w, now)
    case Crash(w) => Move(s, w, Idle)
    case DeliveryStatusReceived(ref, provider, evidence) => s.(db := DeliveryStatus(s.db, ref, provider, evidence))
    case CustomerChanged(id, customer) => s.(db := s.db.(customers := s.db.customers[id := customer]))
    case ConsentRecorded(event) => s.(db := s.db.(consents := s.db.consents + [event]))
    case ConversationChanged(phone, conversation) =>
      s.(db := s.db.(conversations := s.db.conversations[phone := conversation]))
    case UsersChanged(activeUsers) => s.(db := s.db.(activeUsers := activeUsers))
  }

  predicate ByOperator(a: Action) {
    a.DoReplaceRecipients? || a.DoUpdateDraft? || a.DoValidate? || a.DoConfirm? || a.DoLaunch? || a.DoRetry?
  }

  predicate ByEnvironment(a: Action) {
    a.DeliveryStatusReceived? || a.CustomerChanged? || a.ConsentRecorded? || a.ConversationChanged? || a.UsersChanged?
  }

  /** Steps of a worker that write nothing. */
  predicate WritesNothing(a: Action) {
    a.DoRead? || a.DoAdmit? || a.DoCall? || a.Crash?
  }

  lemma NothingWritten(s: System, a: Action)
    requires WritesNothing(a)
    ensures Step(s, a).db == s.db
  {
  }

  function Run(s: System, actions: seq<Action>): System {
    if actions == [] then s
    else Step(Run(s, actions[..|actions| - 1]), actions[|actions| - 1])
  }

  /** A freshly created broadcast: a draft with no recipients, no audit commands and no workers. */
  predicate Initial(s: System) {
    && s.workers == map[] && s.handed == [] && s.calls == [] && s.validations == []
    && s.db.recipients == [] && s.db.audits == []
    && s.db.broadcast.status.Draft? && s.db.broadcast.validationToken.None?
    && s.db.broadcast.confirmedBy.None? && s.db.broadcast.startedBy.None?
    && s.db.broadcast.firstCompletedAt.None?
    && s.db.settings.batchSize >= 1
  }
}
