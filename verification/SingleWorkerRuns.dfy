/**
 A process_batch call of a worker alone is a run of the protocol: its transactions are the actions of
 that worker, so what holds in every run holds of the calls.
 */
module SingleWorkerRuns {
  import opened BroadcastModel
  import opened BroadcastTransactions
  import opened DispatchProtocol
  import opened SingleWorker

  lemma {:induction false} RunThen(s: System, first: seq<Action>, rest: seq<Action>)
    ensures Run(s, first + rest) == Run(Run(s, first), rest)
  {
    if rest == [] {
      assert first + rest == first;
    } else {
      assert (first + rest)[..|first + rest| - 1] == first + rest[..|rest| - 1];
      RunThen(s, first, rest[..|rest| - 1]);
    }
  }

  lemma RunOne(s: System, a: Action)
    ensures Run(s, [a]) == Step(s, a)
  {
    assert [a][..0] == [];
  }

  lemma PrepareStep(s: System, w: WorkerId, id: RecipientId, rest: seq<RecipientId>, templateAvailable: bool, now: Time)
    requires At(s, w) == Draining([id] + rest)
    ensures match PrepareDispatch(s.db, id, templateAvailable, now)
            case Raises => true
            case Skip(db) => StepPrepare(s, w, templateAvailable, now) == Move(s.(db := db), w, Draining(rest))
            case Dispatch(db, plan) =>
              StepPrepare(s, w, templateAvailable, now) == Move(s.(db := db), w, Holding(plan, rest))
  {
    assert ([id] + rest)[0] == id && ([id] + rest)[1..] == rest;
  }

  /** The actions for one claimed recipient lead to the database that the call gives it. */
  lemma DispatchIsRun(s: System, w: WorkerId, id: RecipientId, rest: seq<RecipientId>, call: Call)
    returns (actions: seq<Action>)
    requires At(s, w) == Draining([id] + rest) && DispatchOne(s.db, id, call).Some?
    ensures Run(s, actions).db == DispatchOne(s.db, id, call).value
    ensures At(Run(s, actions), w) == Draining(rest)
  {
    var prepare := DoPrepare(w, call.templateAvailable, call.now);
    PrepareStep(s, w, id, rest, call.templateAvailable, call.now);
    RunOne(s, prepare);
    actions := [prepare];
    var prepared := PrepareDispatch(s.db, id, call.templateAvailable, call.now);
    if prepared.Dispatch? {
      PlanKeepsDatabase(s.db, id, call.templateAvailable, call.now);
      var sending := SendIsRun(StepPrepare(s, w, call.templateAvailable, call.now), w, id, prepared.plan, rest, call);
      RunThen(s, actions, sending);
      actions := actions + sending;
    }
  }

  lemma SendIsRun(s: System, w: WorkerId, id: RecipientId, plan: Plan, rest: seq<RecipientId>, call: Call)
    returns (actions: seq<Action>)
    requires At(s, w) == Holding(plan, rest) && id < |s.db.recipients| && s.db.recipients[id].messages != []
    requires Latest(s.db.recipients[id]).dispatch.Pending?
    requires Admits(s.db, plan, MessageRef(id, |s.db.recipients[id].messages| - 1))
    ensures Run(s, actions).db == AfterSending(s.db, MessageRef(id, |s.db.recipients[id].messages| - 1), call)
    ensures At(Run(s, actions), w) == Draining(rest)
  {
    var ref := MessageRef(id, |s.db.recipients[id].messages| - 1);
    var admit := DoAdmit(w, ref);
    var admitted := Step(s, admit);
    assert admitted == Move(s, w, Admitted(ref, rest));
    var sending := StartIsRun(admitted, w, ref, rest, call);
    RunOne(s, admit);
    RunThen(s, [admit], sending);
    actions := [admit] + sending;
  }

  lemma StartIsRun(s: System, w: WorkerId, ref: MessageRef, rest: seq<RecipientId>, call: Call)
    returns (actions: seq<Action>)
    requires At(s, w) == Admitted(ref, rest) && ValidRef(s.db, ref)
    ensures Run(s, actions).db == AfterSending(s.db, ref, call) && At(Run(s, actions), w) == Draining(rest)
  {
    var start := DoStart(w, call.startedAt);
    var started := Step(s, start);
    RunOne(s, start);
    actions := [start];
    if StartDispatch(s.db, ref, call.startedAt).Handed? {
      var answering := AnswerIsRun(started, w, ref, rest, call);
      RunThen(s, actions, answering);
      actions := actions + answering;
    }
  }

  lemma AnswerIsRun(s: System, w: WorkerId, ref: MessageRef, rest: seq<RecipientId>, call: Call)
    returns (actions: seq<Action>)
    requires At(s, w).Dispatching? && At(s, w).start.ref == ref && At(s, w).queue == rest && ValidRef(s.db, ref)
    ensures Run(s, actions).db == ReconcileAnswer(s.db, ref, call.answers(ref.recipient), call.now)
    ensures At(Run(s, actions), w) == Draining(rest)
  {
    var answer, reconcile := DoCall(w, call.answers(ref.recipient)), DoReconcile(w, call.now);
    RunOne(s, answer);
    RunOne(Step(s, answer), reconcile);
    RunThen(s, [answer], [reconcile]);
    actions := [answer] + [reconcile];
  }

  lemma {:induction false} DispatchAllIsRun(s: System, w: WorkerId, ids: seq<RecipientId>, call: Call)
    returns (actions: seq<Action>)
    requires At(s, w) == Draining(ids) && DispatchAll(s.db, ids, call).Some?
    ensures Run(s, actions).db == DispatchAll(s.db, ids, call).value
    ensures At(Run(s, actions), w) == Draining([])
    decreases |ids|
  {
    if ids == [] {
      actions := [];
    } else {
      assert ids == [ids[0]] + ids[1..];
      var first := DispatchIsRun(s, w, ids[0], ids[1..], call);
      var rest := DispatchAllIsRun(Run(s, first), w, ids[1..], call);
      RunThen(s, first, rest);
      actions := first + rest;
    }
  }

  lemma RecoveredCallIsRun(s: System, w: WorkerId, call: Call) returns (actions: seq<Action>)
    requires At(s, w).Idle? && AfterRecovery(RecoverStaleClaims(s.db, call.now, {}), call).Some?
    ensures Run(s, actions).db == AfterRecovery(RecoverStaleClaims(s.db, call.now, {}), call).value
    ensures At(Run(s, actions), w).Idle?
  {
    var first := [DoRecover(call.now, {})];
    var recovered := RecoveryIsRun(s, call.now);
    var rest := AfterRecoveryIsRun(recovered, w, call);
    RunThen(s, first, rest);
    actions := first + rest;
  }

  lemma RecoveryIsRun(s: System, now: Time) returns (t: System)
    ensures t == Run(s, [DoRecover(now, {})])
    ensures t.db == RecoverStaleClaims(s.db, now, {}) && t.workers == s.workers
  {
    RunOne(s, DoRecover(now, {}));
    t := s.(db := RecoverStaleClaims(s.db, now, {}));
  }

  /** The whole call, in a world that is as the call describes it. */
  lemma CallIsRun(s: System, w: WorkerId, call: Call) returns (actions: seq<Action>)
    requires At(s, w).Idle? && InWorld(s.db, call) == s.db && ProcessBatch(s.db, call).Some?
    ensures Run(s, actions).db == ProcessBatch(s.db, call).value
    ensures At(Run(s, actions), w).Idle?
  {
    SameWorldCall(s.db, call);
    actions := RecoveredCallIsRun(s, w, call);
  }

  lemma SameWorldCall(db: Database, call: Call)
    requires InWorld(db, call) == db
    ensures ProcessBatch(db, call) == AfterRecovery(RecoverStaleClaims(db, call.now, {}), call)
  {
  }

  lemma AfterRecoveryIsRun(s: System, w: WorkerId, call: Call) returns (actions: seq<Action>)
    requires At(s, w).Idle? && AfterRecovery(s.db, call).Some?
    ensures Run(s, actions).db == AfterRecovery(s.db, call).value
    ensures At(Run(s, actions), w).Idle?
  {
    var claiming := ClaimIsRun(s, w, call);
    var claimed := Run(s, claiming);
    var dispatching := DrainIsRun(claimed, w, At(claimed, w).queue, call);
    RunThen(s, claiming, dispatching);
    actions := claiming + dispatching;
  }

  lemma DrainIsRun(s: System, w: WorkerId, ids: seq<RecipientId>, call: Call) returns (actions: seq<Action>)
    requires At(s, w) == Draining(ids) && DispatchAll(s.db, ids, call).Some?
    ensures Run(s, actions).db == CompleteIfIdle(DispatchAll(s.db, ids, call).value, call.now)
    ensures At(Run(s, actions), w).Idle?
  {
    var dispatching := DispatchAllIsRun(s, w, ids, call);
    var finish := DoFinish(w, call.now);
    RunOne(Run(s, dispatching), finish);
    RunThen(s, dispatching, [finish]);
    actions := dispatching + [finish];
  }

  lemma ReadStep(s: System, w: WorkerId, call: Call)
    requires At(s, w).Idle? && AfterRecovery(s.db, call).Some?
    ensures !CommandExists(s.db, call.command)
    ensures StepRead(s, w, call.command, call.clientIds)
         == Move(s, w, Reading(call.command, Candidates(s.db, call.clientIds)))
  {
    var reading := StepRead(s, w, call.command, call.clientIds);
    assert At(reading, w).candidates == Candidates(s.db, call.clientIds);
  }

  lemma ClaimIsRun(s: System, w: WorkerId, call: Call) returns (actions: seq<Action>)
    requires At(s, w).Idle? && AfterRecovery(s.db, call).Some?
    ensures var claim := ClaimRecipients(s.db, call.command, Candidates(s.db, call.clientIds), call.now, {});
            claim.Some? && Run(s, actions).db == claim.value.db && At(Run(s, actions), w) == Draining(claim.value.ids)
  {
    var read, claim := DoRead(w, call.command, call.clientIds), DoClaim(w, call.now, {});
    ReadStep(s, w, call);
    var reading := StepRead(s, w, call.command, call.clientIds);
    RunOne(s, read);
    RunOne(reading, claim);
    RunThen(s, [read], [claim]);
    actions := [read] + [claim];
  }
}
