/** Runs of the engine: what the environment promises, and induction over every transaction and run. */
module EngineRuns {
  import opened Prelude
  import opened Records
  import opened Routing
  import opened RoutingInvariant
  import opened RoutingSteps
  import opened Authority
  import opened Quotas
  import opened Eligibility
  import opened Engine
  import opened EngineInvariant
  import opened EngineSteps
  import opened InboxSteps
  import opened EngineWrites

  /** The touched references are reconciled in some order, each of them. */
  predicate OrderComplete(db: Db, step: Step) {
    match step
    case IngestStep(instance, events, order, _, _) => Enumerates(order, BatchReferences(db, instance, events))
    case AcceptedStep(id, request, events, order, time, later) =>
      var expired := ExpireOperation(db, id.operation, time);
      Addressable(expired, id) ==>
        var acknowledged := Acknowledge(expired, id, request, time, later);
        acknowledged.Some? ==>
          Enumerates(order, BatchReferences(acknowledged.value, StepAt(expired, id).instance, events))
    case _ => true
  }

  /** A worker reports only about attempts that it committed, a finisher only for a claim it was given, and
      providers name only attempts that were committed; the clock never runs backwards, and cleanup deletes
      only what is a day old. Everything else is arbitrary: order, duplication, loss, crashes, contents. */
  ghost predicate Honest(db: Db, step: Step) {
    && db.clock <= FirstReading(db, step) <= LastReading(db, step)
    && OrderComplete(db, step)
    && match step
       case OutcomeStep(attempt, _, _, _) => Known(db, attempt)
       case NotInvokedStep(attempt, _, _, _) => Known(db, attempt)
       case AcceptedStep(attempt, _, events, _, _, _) => Known(db, attempt) && EventsKnown(db, events)
       case IngestStep(_, events, _, _, _) => EventsKnown(db, events)
       case FinishStep(claim, _, _, _) => WasClaimed(db, claim)
       case CleanStep(doomed, time) => Deletable(db.env.ledger, doomed, time)
       case GuessStep(_, guess, _) => !WasGuessed(db, guess)
       case _ => true
  }

  // --------------------------------------------------- transactions as chains of writes

  lemma KnownWhenReached(a: Db, db: Db, id: AttemptId, inv: Db -> bool)
    requires DbValid(a) && Arrives(a, db, inv) && Known(a, id)
    ensures Known(db, id) && Addressable(db, id)
  {
    KnownLater(a, db, id);
    KnownSettled(db, id);
  }

  lemma ClaimedWhenReached(a: Db, db: Db, claim: Claim, inv: Db -> bool)
    requires Arrives(a, db, inv) && WasClaimed(a, claim)
    ensures WasClaimed(db, claim)
  {
    var k :| 0 <= k < |a.trail| && a.trail[k].Claimed? && a.trail[k].claim == claim;
    assert db.trail[k] == a.trail[k];
  }

  lemma ExpireReached(a: Db, db: Db, operation: Id, time: Time, inv: Db -> bool)
    requires Stable(inv) && Arrives(a, db, inv) && db.clock <= time
    ensures var e := ExpireOperation(db, operation, time);
            && Arrives(a, e, inv) && e.clock == time && e.env == db.env
            && e.deliveries.Keys == db.deliveries.Keys
            && (operation in db.deliveries ==> e.deliveries[operation].saved == db.deliveries[operation].saved)
  {
    hide DbValid, DbEvolves;
    Write1(a, db, Expiring(operation, time), inv);
  }

  lemma ClosesReached(a: Db, db: Db, operation: Id, time: Time, inv: Db -> bool)
    requires Stable(inv) && Arrives(a, db, inv) && db.clock <= time
    ensures Arrives(a, Close(db, operation, time), inv)
  {
    hide DbValid, DbEvolves, Arrives;
    ExpireReached(a, db, operation, time, inv);
    var expired := ExpireOperation(db, operation, time);
    if operation in expired.deliveries && Live(expired.deliveries[operation].op) {
      Write1(a, expired, Closing(operation, time), inv);
    }
  }

  lemma RecoversReached(a: Db, db: Db, operation: Id, time: Time, inv: Db -> bool)
    requires Stable(inv) && Arrives(a, db, inv) && db.clock <= time
    ensures Arrives(a, RecoverOperation(db, operation, time), inv)
  {
    hide DbValid, DbEvolves, Arrives, Stable, RecoverLocked;
    ExpireReached(a, db, operation, time, inv);
    var expired := ExpireOperation(db, operation, time);
    if operation in expired.deliveries {
      Write1(a, expired, Recovering(operation, time), inv);
    }
  }

  lemma RequestReached(a: Db, db: Db, operation: Id, principal: Id, action: Action, time: Time, inv: Db -> bool)
    requires Stable(inv) && Arrives(a, db, inv) && db.clock <= time
    ensures Arrives(a, RequestSend(db, operation, principal, action, time).db, inv)
  {
    hide DbValid, DbEvolves, Arrives;
    if CheckAccess(db, operation, principal).None? {
      ExpireReached(a, db, operation, time, inv);
      Write1(a, ExpireOperation(db, operation, time), Sending(operation, principal, action, time), inv);
    }
  }

  lemma AttachReached(a: Db, db: Db, operation: Id, principal: Id, code: Code, time: Time, inv: Db -> bool)
    requires Stable(inv) && Arrives(a, db, inv) && db.clock <= time && operation in db.deliveries
    ensures Arrives(a, AttachCode(db, operation, principal, code, time).db, inv)
  {
    hide DbValid, DbEvolves;
    ExpireReached(a, db, operation, time, inv);
    var expired := ExpireOperation(db, operation, time);
    var d := expired.deliveries[operation];
    if Live(d.op) && d.secrets.Some? && d.secrets.value.code.None? && CodeFits(d.saved, code) {
      CodelessPrepared(expired, operation);
      ActivateLockedValid(expired, operation, code.fingerprint, time);
      Write1(a, expired, Activating(operation, code.fingerprint, time), inv);
      var active := ActivateLocked(expired, operation, code.fingerprint, time);
      Write1(a, active, Starting(operation, principal, time), inv);
    }
  }

  lemma SubmitReached(a: Db, db: Db, operation: Id, principal: Id, code: Code, time: Time, inv: Db -> bool)
    requires Stable(inv) && Arrives(a, db, inv) && db.clock <= time
    ensures Arrives(a, Submit(db, operation, principal, code, time).db, inv)
  {
    hide DbValid, DbEvolves, Arrives, Stable, AttachCode;
    if CheckAccess(db, operation, principal).None? {
      AttachReached(a, db, operation, principal, code, time, inv);
    }
  }

  lemma PrepareReached(a: Db, db: Db, operation: Id, principal: Id, input: Admission, time: Time, inv: Db -> bool)
    requires Stable(inv) && Arrives(a, db, inv) && db.clock <= time
    ensures Arrives(a, Prepare(db, operation, principal, input, time), inv)
  {
    hide DbValid, DbEvolves, Arrives, Stable, Admit;
    Write1(a, db, Admitting(operation, input, time), inv);
  }

  lemma CreateReached(a: Db, db: Db, operation: Id, principal: Id, input: Admission, code: Code,
                      time: Time, attachTime: Time, inv: Db -> bool)
    requires Stable(inv) && Arrives(a, db, inv) && db.clock <= time <= attachTime
    ensures Arrives(a, CreateOperation(db, operation, principal, input, code, time, attachTime), inv)
  {
    hide DbValid, DbEvolves, Arrives, Stable;
    Write1(a, db, Admitting(operation, input, time), inv);
    var admitted := Admit(db, operation, input, time);
    if admitted.result.Success? {
      AdmittedRows(db, operation, input, time);
      AttachReached(a, admitted.db, operation, principal, code, attachTime, inv);
    }
  }

  lemma ClaimReached(a: Db, db: Db, id: AttemptId, jobRevision: nat, time: Time, later: Time, inv: Db -> bool)
    requires Stable(inv) && Arrives(a, db, inv) && db.clock <= time <= later
    ensures Arrives(a, ClaimAttempt(db, id, jobRevision, time, later), inv)
  {
    hide DbValid, DbEvolves, Arrives, Stable, ClaimLocked;
    ExpireReached(a, db, id.operation, time, inv);
    var expired := ExpireOperation(db, id.operation, time);
    if Addressable(expired, id) {
      Write1(a, expired, Claiming(id, jobRevision, later), inv);
    } else {
      assert ClaimAttempt(db, id, jobRevision, time, later) == db;
    }
  }

  lemma FinishReached(a: Db, db: Db, claim: Claim, decision: AuthorityDecision, time: Time, later: Time, inv: Db -> bool)
    requires Stable(inv) && Arrives(a, db, inv) && db.clock <= time <= later && WasClaimed(db, claim)
    ensures Arrives(a, FinishAttempt(db, claim, decision, time, later), inv)
  {
    hide DbValid, DbEvolves, Stable, FinishLocked;
    Stays(db, inv);
    ExpireReached(db, db, claim.attempt.operation, time, inv);
    ExpireReached(a, db, claim.attempt.operation, time, inv);
    var expired := ExpireOperation(db, claim.attempt.operation, time);
    ClaimedWhenReached(db, expired, claim, inv);
    if Addressable(expired, claim.attempt) {
      Write1(a, expired, Finishing(claim, decision, later), inv);
    }
  }

  lemma GateReached(a: Db, db: Db, id: AttemptId, jobRevision: nat, time: Time, later: Time, inv: Db -> bool)
    requires Stable(inv) && Arrives(a, db, inv) && db.clock <= time <= later
    ensures Arrives(a, DispatchGate(db, id, jobRevision, time, later), inv)
  {
    hide DbValid, DbEvolves, Arrives, Stable, GateLocked;
    ExpireReached(a, db, id.operation, time, inv);
    var expired := ExpireOperation(db, id.operation, time);
    if Addressable(expired, id) {
      Write1(a, expired, Gating(id, jobRevision, time, later), inv);
    }
  }

  lemma ReportReached(a: Db, db: Db, id: AttemptId, outcome: Outcome, time: Time, mergeTime: Time, inv: Db -> bool)
    requires Stable(inv) && Arrives(a, db, inv) && Known(db, id) && OutcomeValid(outcome) && db.clock <= time
    ensures Arrives(a, RecordOutcome(db, id, outcome, time, mergeTime), inv)
  {
    hide DbValid, DbEvolves;
    var expired := ExpireOperation(db, id.operation, time);
    Stays(db, inv);
    ExpireReached(db, db, id.operation, time, inv);
    ExpireReached(a, db, id.operation, time, inv);
    KnownWhenReached(db, expired, id, inv);
    Write1(a, expired, Reporting(id, outcome, mergeTime), inv);
  }

  // ---------------------------------------------------------- callback transactions

  lemma InsertReached(a: Db, db: Db, instance: Id, event: CallbackEvent, inv: Db -> bool)
    requires Inductive(inv) && Arrives(a, db, inv) && ReferenceKnown(db, event.reference)
    requires InsertEvent(db, instance, event).Some?
    ensures Arrives(a, InsertEvent(db, instance, event).value, inv)
  {
    hide DbValid, DbEvolves;
    var target := EventTarget(db, instance, event);
    EventTargetValid(db, instance, event);
    if target.Some? {
      var alias := Alias(instance, ProviderReference(event.request.value));
      AnyWrite(a, db, Registering(alias, target.value), inv);
      RegisterValid(db, alias, target.value);
      var aliased := Register(db, alias, target.value).value;
      AnyWrite(a, aliased, Inserting(instance, event), inv);
    } else {
      AnyWrite(a, db, Inserting(instance, event), inv);
    }
  }

  lemma {:induction false} InsertAllReached(a: Db, db: Db, instance: Id, events: seq<CallbackEvent>, inv: Db -> bool)
    requires Inductive(inv) && Arrives(a, db, inv) && EventsKnown(db, events)
    requires InsertEvents(db, instance, events).Some?
    ensures Arrives(a, InsertEvents(db, instance, events).value, inv)
    ensures Arrives(db, InsertEvents(db, instance, events).value, inv)
  {
    hide DbValid, DbEvolves;
    Stays(db, inv);
    if events != [] {
      var earlier := events[..|events|-1];
      InsertAllReached(a, db, instance, earlier, inv);
      var before := InsertEvents(db, instance, earlier).value;
      EventsKnownLater(db, before, events);
      assert ReferenceKnown(before, events[|events|-1].reference);
      InsertReached(a, before, instance, events[|events|-1], inv);
      InsertReached(db, before, instance, events[|events|-1], inv);
    }
  }

  lemma ApplyOneReached(a: Db, db: Db, alias: Alias, id: AttemptId, revision: nat, time: Time, k: nat, inv: Db -> bool)
    requires Stable(inv) && Arrives(a, db, inv) && k < |db.inbox|
    requires alias in db.correlations && db.correlations[alias] == id
    requires Addressable(db, id) && StepAt(db, id).instanceRevision == revision
    ensures var row := db.inbox[k];
            Applicable(row, alias.instance, alias.reference, revision) && !row.processed ==>
              Arrives(a, ApplyRow(db, id, k, time), inv)
  {
    hide DbValid, DbEvolves, Arrives, Merge;
    if Applicable(db.inbox[k], alias.instance, alias.reference, revision) && !db.inbox[k].processed {
      Write1(a, db, Applying(alias, k, time), inv);
    }
  }

  lemma AliasTargetKept(a: Db, b: Db, alias: Alias, inv: Db -> bool)
    requires Arrives(a, b, inv) && alias in a.correlations && Addressable(a, a.correlations[alias])
    ensures alias in b.correlations && b.correlations[alias] == a.correlations[alias]
    ensures Addressable(b, a.correlations[alias])
    ensures StepAt(b, a.correlations[alias]) == StepAt(a, a.correlations[alias])
  {
    hide DbValid;
    AddressableLater(a, b, a.correlations[alias]);
  }

  lemma {:induction false} ApplyReached(a: Db, db: Db, alias: Alias, time: Time, count: nat, inv: Db -> bool)
    requires Stable(inv) && Arrives(a, db, inv) && Arrives(db, db, inv) && count <= |db.inbox|
    requires alias in db.correlations && Addressable(db, db.correlations[alias])
    ensures var id := db.correlations[alias];
            var r := ApplyRows(db, alias, id, StepAt(db, id).instanceRevision, time, count);
            Arrives(a, r, inv) && Arrives(db, r, inv)
  {
    hide DbValid, DbEvolves, Arrives, Stable, Merge, Addressable, ApplyRow;
    var id := db.correlations[alias];
    var revision := StepAt(db, id).instanceRevision;
    if count > 0 {
      ApplyReached(a, db, alias, time, count - 1, inv);
      var before := ApplyRows(db, alias, id, revision, time, count - 1);
      AliasTargetKept(db, before, alias, inv);
      ApplyOneReached(a, before, alias, id, revision, time, count - 1, inv);
      ApplyOneReached(db, before, alias, id, revision, time, count - 1, inv);
    }
  }

  lemma ReconcileReached(a: Db, db: Db, alias: Alias, time: Time, mergeTime: Time, inv: Db -> bool)
    requires Stable(inv) && Arrives(a, db, inv)
    ensures Arrives(a, Reconcile(db, alias, time, mergeTime), inv)
  {
    hide DbValid, DbEvolves;
    if alias in db.correlations {
      var id := db.correlations[alias];
      var expired := ExpireOperation(db, id.operation, time);
      Write1(a, db, Expiring(id.operation, time), inv);
      Stays(db, inv);
      Write1(db, db, Expiring(id.operation, time), inv);
      AliasKept(db, expired, alias);
      if Addressable(expired, id) {
        Stays(expired, inv);
        ApplyReached(a, expired, alias, mergeTime, |expired.inbox|, inv);
      }
    }
  }

  lemma {:induction false} ReconcileAllReached(a: Db, db: Db, instance: Id, references: seq<Reference>,
                                               time: Time, mergeTime: Time, inv: Db -> bool)
    requires Stable(inv) && Arrives(a, db, inv)
    ensures Arrives(a, ReconcileAll(db, instance, references, time, mergeTime), inv)
  {
    hide DbValid, DbEvolves, Arrives;
    if references != [] {
      var before := ReconcileAll(db, instance, references[..|references|-1], time, mergeTime);
      ReconcileAllReached(a, db, instance, references[..|references|-1], time, mergeTime, inv);
      ReconcileReached(a, before, Alias(instance, references[|references|-1]), time, mergeTime, inv);
    }
  }

  lemma IngestReached(a: Db, db: Db, instance: Id, events: seq<CallbackEvent>, order: seq<Reference>,
                      time: Time, mergeTime: Time, inv: Db -> bool)
    requires Inductive(inv) && Arrives(a, db, inv) && EventsKnown(db, events)
    ensures Arrives(a, Ingest(db, instance, events, order, time, mergeTime), inv)
  {
    hide DbValid, DbEvolves, Arrives, Stable, Inductive;
    InductiveStable(inv);
    if InsertEvents(db, instance, events).Some? {
      InsertAllReached(a, db, instance, events, inv);
      ReconcileAllReached(a, InsertEvents(db, instance, events).value, instance, order, time, mergeTime, inv);
    }
  }

  lemma RequestAliasValid(a: Db, b: Db, id: AttemptId, request: Id)
    requires DbValid(a) && DbEvolves(a, b) && Known(a, id) && Addressable(a, id)
    ensures AliasValid(b, Alias(StepAt(a, id).instance, ProviderReference(request)), id)
  {
    AddressableLater(a, b, id);
  }

  lemma AcknowledgeReached(a: Db, db: Db, id: AttemptId, request: Option<Id>, time: Time, mergeTime: Time, inv: Db -> bool)
    requires Inductive(inv) && Arrives(a, db, inv) && Known(db, id) && Addressable(db, id)
    requires Acknowledge(db, id, request, time, mergeTime).Some?
    ensures Arrives(a, Acknowledge(db, id, request, time, mergeTime).value, inv)
  {
    hide DbValid, DbEvolves, AliasValid, Merge, Reconcile, Known, Stable, Inductive;
    InductiveStable(inv);
    var accepted := Merge(db, id, AcceptedOutcome, Response, mergeTime);
    Write1(a, db, Reporting(id, AcceptedOutcome, mergeTime), inv);
    if request.Some? {
      MergeValid(db, id, AcceptedOutcome, Response, mergeTime);
      RequestAliasValid(db, accepted, id, request.value);
      var alias := Alias(StepAt(db, id).instance, ProviderReference(request.value));
      AnyWrite(a, accepted, Registering(alias, id), inv);
      ReconcileReached(a, Register(accepted, alias, id).value, alias, time, mergeTime, inv);
    }
  }

  lemma AcceptedReached(a: Db, db: Db, id: AttemptId, request: Option<Id>, events: seq<CallbackEvent>,
                        order: seq<Reference>, time: Time, mergeTime: Time, inv: Db -> bool)
    requires Inductive(inv) && Arrives(a, db, inv) && db.clock <= time
    requires Known(db, id) && EventsKnown(db, events)
    ensures Arrives(a, RecordAccepted(db, id, request, events, order, time, mergeTime), inv)
  {
    hide DbValid, DbEvolves, EventsKnown, Stable, Inductive;
    InductiveStable(inv);
    var expired := ExpireOperation(db, id.operation, time);
    Stays(db, inv);
    ExpireReached(db, db, id.operation, time, inv);
    ExpireReached(a, db, id.operation, time, inv);
    KnownWhenReached(db, expired, id, inv);
    var acknowledged := Acknowledge(expired, id, request, time, mergeTime);
    if acknowledged.Some? {
      AcknowledgeReached(a, expired, id, request, time, mergeTime, inv);
      AcknowledgeReached(db, expired, id, request, time, mergeTime, inv);
      EventsKnownLater(db, acknowledged.value, events);
      IngestReached(a, acknowledged.value, StepAt(expired, id).instance, events, order, time, mergeTime, inv);
    }
  }

  // ------------------------------------------------------------- steps and whole runs

  lemma ClientStepReached(a: Db, db: Db, step: Step, inv: Db -> bool)
    requires Stable(inv) && Arrives(a, db, inv) && Honest(db, step)
    requires step.PrepareStep? || step.CreateStep? || step.SubmitStep? || step.RequestStep? || step.CloseStep? || step.ExpireStep?
    ensures Arrives(a, Transact(db, step), inv)
  {
    hide DbValid, DbEvolves, Arrives, Stable, Prepare, CreateOperation, Submit, RequestSend, Close, ExpireOperation;
    match step
    case PrepareStep(operation, principal, input, time) => PrepareReached(a, db, operation, principal, input, time, inv);
    case CreateStep(operation, principal, input, code, time, later) =>
      CreateReached(a, db, operation, principal, input, code, time, later, inv);
    case SubmitStep(operation, principal, code, time) => SubmitReached(a, db, operation, principal, code, time, inv);
    case RequestStep(operation, principal, action, time) => RequestReached(a, db, operation, principal, action, time, inv);
    case CloseStep(operation, time) => ClosesReached(a, db, operation, time, inv);
    case ExpireStep(operation, time) => ExpireReached(a, db, operation, time, inv);
  }

  lemma WorkerStepReached(a: Db, db: Db, step: Step, inv: Db -> bool)
    requires Stable(inv) && Arrives(a, db, inv) && Honest(db, step)
    requires step.ClaimStep? || step.FinishStep? || step.GateStep? || step.OutcomeStep? || step.NotInvokedStep? || step.RecoverStep?
    ensures Arrives(a, Transact(db, step), inv)
  {
    hide DbValid, DbEvolves, Known, Arrives, Stable, ClaimAttempt, FinishAttempt, DispatchGate, RecordOutcome, RecoverOperation;
    match step
    case ClaimStep(attempt, jobRevision, time, later) => ClaimReached(a, db, attempt, jobRevision, time, later, inv);
    case FinishStep(claim, decision, time, later) => FinishReached(a, db, claim, decision, time, later, inv);
    case GateStep(attempt, jobRevision, time, later) => GateReached(a, db, attempt, jobRevision, time, later, inv);
    case OutcomeStep(attempt, failure, time, later) =>
      ReportReached(a, db, attempt, FailureOutcome(failure), time, later, inv);
    case NotInvokedStep(attempt, tooLate, time, later) =>
      ReportReached(a, db, attempt, NotInvokedOutcome(tooLate), time, later, inv);
    case RecoverStep(operation, time) => RecoversReached(a, db, operation, time, inv);
  }

  lemma TableStepReached(a: Db, db: Db, step: Step, inv: Db -> bool)
    requires Stable(inv) && Arrives(a, db, inv) && Honest(db, step)
    requires step.AdministerStep? || step.InvokeStep? || step.CleanStep? || step.GuessStep? || step.ForgetStep?
    ensures Arrives(a, Transact(db, step), inv)
  {
    hide DbValid, DbEvolves, Arrives, Stable, AdministerWorld, Invoke, Clean, CountGuess, ForgetCallbacks;
    match step
    case AdministerStep(command) => Write1(a, db, Administering(command), inv);
    case InvokeStep(attempt) => Write1(a, db, Invoking(attempt), inv);
    case CleanStep(doomed, time) => Write1(a, db, Cleaning(doomed, time), inv);
    case GuessStep(recipient, guess, time) => Write1(a, db, Guessing(recipient, guess, time), inv);
    case ForgetStep(places, time) => Write1(a, db, Forgetting(places, time), inv);
  }

  /** Transactions that add no alias and no inbox row. */
  lemma SettledStepReached(a: Db, db: Db, step: Step, inv: Db -> bool)
    requires Stable(inv) && Arrives(a, db, inv) && Honest(db, step)
    requires !step.AcceptedStep? && !step.IngestStep?
    ensures Arrives(a, Transact(db, step), inv)
  {
    hide DbValid, DbEvolves, Honest, Transact, Arrives, Stable;
    if step.PrepareStep? || step.CreateStep? || step.SubmitStep? || step.RequestStep? || step.CloseStep? || step.ExpireStep? {
      ClientStepReached(a, db, step, inv);
    } else if step.AdministerStep? || step.InvokeStep? || step.CleanStep? || step.GuessStep? || step.ForgetStep? {
      TableStepReached(a, db, step, inv);
    } else {
      WorkerStepReached(a, db, step, inv);
    }
  }

  lemma StepReached(a: Db, db: Db, step: Step, inv: Db -> bool)
    requires Inductive(inv) && Arrives(a, db, inv) && Honest(db, step)
    ensures Arrives(a, Transact(db, step), inv)
  {
    hide DbValid, DbEvolves, EventsKnown, Known, Arrives, Stable, Inductive;
    match step
    case AcceptedStep(attempt, request, events, order, time, later) =>
      AcceptedReached(a, db, attempt, request, events, order, time, later, inv);
    case IngestStep(instance, events, order, time, later) => IngestReached(a, db, instance, events, order, time, later, inv);
    case _ =>
      InductiveStable(inv);
      SettledStepReached(a, db, step, inv);
  }

  function Run(db: Db, steps: seq<Step>): Db {
    if steps == [] then db else Transact(Run(db, steps[..|steps|-1]), steps[|steps|-1])
  }

  ghost predicate HonestRun(db: Db, steps: seq<Step>) {
    steps != [] ==>
      HonestRun(db, steps[..|steps|-1]) && Honest(Run(db, steps[..|steps|-1]), steps[|steps|-1])
  }

  /** Induction over runs: what every write keeps holds after every run of every mix of clients, workers,
      providers and administrators, and nothing that was recorded is undone. */
  lemma {:induction false} RunReached(db: Db, steps: seq<Step>, inv: Db -> bool)
    requires DbValid(db) && Inductive(inv) && inv(db) && HonestRun(db, steps)
    ensures Arrives(db, Run(db, steps), inv)
  {
    hide DbValid, DbEvolves, Honest, Transact, Arrives, Inductive;
    if steps == [] {
      Stays(db, inv);
    } else {
      RunReached(db, steps[..|steps|-1], inv);
      StepReached(db, Run(db, steps[..|steps|-1]), steps[|steps|-1], inv);
    }
  }

  /** A new deployment: settings are fixed, everything else is empty. */
  function EmptyDb(settings: Settings, clock: Time): Db {
    Db(clock,
       Environment(settings, World(map[], [], map[], [], map[], map[]), Ledger(map[], {}), map[]),
       map[], map[], [], map[], [], {}, [])
  }

  lemma EmptyValid(settings: Settings, clock: Time)
    ensures DbValid(EmptyDb(settings, clock))
  {
  }

  /** States that some run of a new deployment can reach. */
  ghost predicate Reachable(db: Db) {
    exists settings, clock, steps :: HonestRun(EmptyDb(settings, clock), steps) && db == Run(EmptyDb(settings, clock), steps)
  }

  /** Reachability is closed under honest steps. */
  lemma ReachableNext(db: Db, step: Step)
    requires Reachable(db) && Honest(db, step)
    ensures Reachable(Transact(db, step))
  {
    hide Honest, Transact, EmptyDb;
    var settings, clock, steps :| HonestRun(EmptyDb(settings, clock), steps) && db == Run(EmptyDb(settings, clock), steps);
    var longer := steps + [step];
    assert longer[..|longer|-1] == steps;
    assert HonestRun(EmptyDb(settings, clock), longer) && Transact(db, step) == Run(EmptyDb(settings, clock), longer);
  }

  lemma EmptyReachable(settings: Settings, clock: Time)
    ensures Reachable(EmptyDb(settings, clock))
  {
    assert HonestRun(EmptyDb(settings, clock), []) && EmptyDb(settings, clock) == Run(EmptyDb(settings, clock), []);
  }

  lemma ReachableHas(db: Db, inv: Db -> bool)
    requires Reachable(db) && Inductive(inv)
    requires forall settings, clock :: inv(EmptyDb(settings, clock))
    ensures DbValid(db) && inv(db)
  {
    hide DbValid, DbEvolves, Inductive, HonestRun, Run, EmptyDb;
    var settings, clock, steps :| HonestRun(EmptyDb(settings, clock), steps) && db == Run(EmptyDb(settings, clock), steps);
    EmptyValid(settings, clock);
    RunReached(EmptyDb(settings, clock), steps, inv);
  }

  /** The rows of every operation are valid in every reachable state. */
  lemma RoutingHolds(db: Db, operation: Id)
    requires Reachable(db)
    ensures DbValid(db) && (operation in db.deliveries ==> RowsValid(db.deliveries[operation]))
  {
    hide DbValid, Reachable;
    ReachableHas(db, _ => true);
    if operation in db.deliveries {
      ValidRows(db, operation);
    }
  }

  /** Nothing that was recorded is undone, whatever happens next. */
  lemma RunsOnlyEvolve(db: Db, steps: seq<Step>)
    requires DbValid(db) && HonestRun(db, steps)
    ensures DbValid(Run(db, steps)) && DbEvolves(db, Run(db, steps))
  {
    hide DbValid, DbEvolves, HonestRun, Run;
    RunReached(db, steps, _ => true);
  }
}
