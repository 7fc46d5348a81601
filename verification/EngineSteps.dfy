/** Every transaction keeps `DbValid` and only lets the engine evolve. */
module EngineSteps {
  import opened Prelude
  import opened Records
  import opened Routing
  import opened RoutingInvariant
  import opened RoutingSteps
  import opened Authority
  import opened Revocation
  import opened Quotas
  import opened Eligibility
  import opened Engine
  import opened EngineInvariant

  // -------------------------------------------------------------- shared statements

  /** Writes to the other tables do not touch what `DbValid` reads. */
  lemma OtherTables(a: Db, b: Db)
    requires DbValid(a)
    requires b.env.world == a.env.world && a.clock <= b.clock
    requires b.deliveries == a.deliveries && b.correlations == a.correlations && b.inbox == a.inbox
    requires a.observations <= b.observations && a.trail <= b.trail
    ensures DbValid(b) && DbEvolves(a, b)
  {
    DbEvolvesReflexive(a);
    AliasesLater(a, b);
    forall op | op in b.deliveries ensures RowsCaptured(b.env.world, b.deliveries[op]) {
      assert RowsCaptured(a.env.world, a.deliveries[op]);
    }
    forall op | op in b.deliveries ensures Unstarted(b.deliveries[op], b.clock) {
      assert Unstarted(a.deliveries[op], a.clock);
    }
  }

  lemma ValidRows(db: Db, operation: Id)
    requires DbValid(db) && operation in db.deliveries
    ensures RowsCaptured(db.env.world, db.deliveries[operation]) && RowsValid(db.deliveries[operation])
  {
  }

  lemma TickValid(db: Db, time: Time)
    requires DbValid(db)
    ensures DbValid(Tick(db, time)) && DbEvolves(db, Tick(db, time))
  {
    hide DbValid, DbEvolves;
    OtherTables(db, Tick(db, time));
  }

  lemma ExpireValid(db: Db, operation: Id, time: Time)
    requires DbValid(db)
    ensures DbValid(ExpireOperation(db, operation, time)) && DbEvolves(db, ExpireOperation(db, operation, time))
  {
    hide DbValid, DbEvolves, RowsValid, Evolves;
    TickValid(db, time);
    if operation in db.deliveries {
      ValidRows(db, operation);
      ExpireKeeps(db.deliveries[operation], time);
      StoreGrown(Tick(db, time), operation, Expire(db.deliveries[operation], time));
      DbEvolvesTransitive(db, Tick(db, time), ExpireOperation(db, operation, time));
    }
  }

  lemma KnownSettled(db: Db, id: AttemptId)
    requires DbValid(db) && Known(db, id)
    ensures Addressable(db, id) && Settled(AttemptAt(db, id))
  {
    ValidAddressable(db, id);
  }

  lemma KnownLater(a: Db, b: Db, id: AttemptId)
    requires DbValid(a) && DeliveriesEvolve(a, b) && Known(a, id)
    ensures Known(b, id)
  {
    ValidAddressable(a, id);
    AddressableLater(a, b, id);
  }

  /** Evidence about a committed attempt is always safe to merge. */
  lemma MergeValid(db: Db, id: AttemptId, outcome: Outcome, source: Source, time: Time)
    requires DbValid(db) && Known(db, id) && OutcomeValid(outcome)
    ensures DbValid(Merge(db, id, outcome, source, time)) && DbEvolves(db, Merge(db, id, outcome, source, time))
  {
    hide DbValid, DbEvolves, RowsValid, Evolves;
    KnownSettled(db, id);
    var d := db.deliveries[id.operation];
    var env := Restrict(db.env, StepAt(db, id).instance, outcome.retryAt);
    var intent := IntentAt(db, id);
    NextIsLater(env, d.saved, time, Some(intent), AttemptAt(db, id).route.position);
    var next := NextProvider(AvailableProviders(env, d.saved, time, Some(intent)), AttemptAt(db, id).route.position);
    var eligible := IntentEligible(env.world, d.saved, intent);
    ValidRows(db, id.operation);
    MergeKeeps(d, id.index, outcome, eligible, next, time);
    var e := MergeOutcome(d, id.index, outcome, eligible, next, time);
    var ticked := Tick(db, time);
    TickValid(db, time);
    StoreGrown(ticked, id.operation, e);
    var s := Store(ticked, id.operation, e);
    OtherTables(s, Merge(db, id, outcome, source, time));
    DbEvolvesTransitive(db, ticked, s);
    DbEvolvesTransitive(db, s, Merge(db, id, outcome, source, time));
  }

  // ------------------------------------------------------------------ dispatch.ts

  lemma GateTables(db: Db, id: AttemptId, jobRevision: nat, time: Time, mergeTime: Time)
    requires Addressable(db, id)
    ensures var gated := GatedRows(db, id, jobRevision, time, mergeTime);
            var r := GateLocked(db, id, jobRevision, time, mergeTime);
            && r.deliveries == gated.deliveries && r.correlations == gated.correlations && r.inbox == gated.inbox
            && r.env.world == gated.env.world && gated.clock <= r.clock
            && gated.observations <= r.observations && gated.trail <= r.trail
  {
    hide Gate, GateVerdictOf, RetryAt, AvailableProviders, NextProvider, Count;
  }

  lemma GateLockedValid(db: Db, id: AttemptId, jobRevision: nat, time: Time, mergeTime: Time)
    requires DbValid(db) && Addressable(db, id)
    ensures DbValid(GateLocked(db, id, jobRevision, time, mergeTime))
    ensures DbEvolves(db, GateLocked(db, id, jobRevision, time, mergeTime))
  {
    hide DbValid, DbEvolves, RowsValid, Evolves, Gate, Store, GateLocked, AvailableProviders, NextProvider;
    var d := db.deliveries[id.operation];
    var view := ViewGate(db, id, time, mergeTime);
    NextIsLater(db.env, d.saved, mergeTime, Some(IntentAt(db, id)), AttemptAt(db, id).route.position);
    ValidRows(db, id.operation);
    GateKeeps(d, id.index, jobRevision, time, mergeTime, view);
    var gated := GatedRows(db, id, jobRevision, time, mergeTime);
    StoreGrown(db, id.operation, Gate(d, id.index, jobRevision, time, mergeTime, view));
    GateTables(db, id, jobRevision, time, mergeTime);
    OtherTables(gated, GateLocked(db, id, jobRevision, time, mergeTime));
    DbEvolvesTransitive(db, gated, GateLocked(db, id, jobRevision, time, mergeTime));
  }

  lemma InvokeValid(db: Db, id: AttemptId)
    requires DbValid(db)
    ensures DbValid(Invoke(db, id)) && DbEvolves(db, Invoke(db, id))
  {
    hide DbValid, DbEvolves;
    OtherTables(db, Invoke(db, id));
  }

  // ------------------------------------------------------------------ recovery.ts

  lemma RecoverLockedValid(db: Db, operation: Id, time: Time)
    requires DbValid(db) && operation in db.deliveries
    ensures DbValid(RecoverLocked(db, operation, time)) && DbEvolves(db, RecoverLocked(db, operation, time))
  {
    hide DbValid, DbEvolves, RowsValid, Evolves;
    var d := db.deliveries[operation];
    ValidRows(db, operation);
    RecoverKeeps(d, time);
    var s := Store(db, operation, RecoverOverdue(d, time));
    StoreGrown(db, operation, RecoverOverdue(d, time));
    OtherTables(s, RecoverLocked(db, operation, time));
    DbEvolvesTransitive(db, s, RecoverLocked(db, operation, time));
  }

  // ------------------------------------------------------------- authorization.ts

  lemma ClaimLockedValid(db: Db, id: AttemptId, jobRevision: nat, time: Time)
    requires DbValid(db) && Addressable(db, id)
    ensures DbValid(ClaimLocked(db, id, jobRevision, time)) && DbEvolves(db, ClaimLocked(db, id, jobRevision, time))
  {
    hide DbValid, DbEvolves, RowsValid, Evolves;
    var d := db.deliveries[id.operation];
    var eligible := IntentEligible(db.env.world, d.saved, IntentAt(db, id));
    var block := BlockOf(db, d.saved.project);
    ValidRows(db, id.operation);
    ClaimKeeps(d, id.index, jobRevision, time, eligible, block);
    var e := ClaimAuthorization(d, id.index, jobRevision, time, eligible, block);
    var ticked := Tick(db, time);
    TickValid(db, time);
    StoreGrown(ticked, id.operation, e);
    OtherTables(Store(ticked, id.operation, e), ClaimLocked(db, id, jobRevision, time));
    DbEvolvesTransitive(db, ticked, Store(ticked, id.operation, e));
    DbEvolvesTransitive(db, Store(ticked, id.operation, e), ClaimLocked(db, id, jobRevision, time));
  }

  lemma FinishLockedValid(db: Db, claim: Claim, decision: AuthorityDecision, time: Time)
    requires DbValid(db) && Addressable(db, claim.attempt)
    ensures DbValid(FinishLocked(db, claim, decision, time)) && DbEvolves(db, FinishLocked(db, claim, decision, time))
  {
    hide DbValid, DbEvolves, RowsValid, Evolves;
    var id := claim.attempt;
    var d := db.deliveries[id.operation];
    var eligible := IntentEligible(db.env.world, d.saved, IntentAt(db, id));
    var block := BlockOf(db, d.saved.project);
    ValidRows(db, id.operation);
    FinishKeeps(d, id.index, claim, decision, time, eligible, block);
    var e := FinishAuthorization(d, id.index, claim, decision, time, eligible, block);
    var ticked := Tick(db, time);
    TickValid(db, time);
    StoreGrown(ticked, id.operation, e);
    OtherTables(Store(ticked, id.operation, e), FinishLocked(db, claim, decision, time));
    DbEvolvesTransitive(db, ticked, Store(ticked, id.operation, e));
    DbEvolvesTransitive(db, Store(ticked, id.operation, e), FinishLocked(db, claim, decision, time));
  }

  // ----------------------------------------------------- actions.ts, lifecycle.ts

  lemma FirstOfferedStep(env: Environment, saved: Saved, time: Time, o: Availability)
    requires o in AvailableProviders(env, saved, time, None)
    ensures PolicyOpen(env.world, saved) && o.position < |saved.steps|
  {
    AvailableExact(env, saved, time, None, o);
  }

  /** The chosen target is an offered step. */
  lemma TargetOffered(db: Db, d: Delivery, action: Action, time: Time)
    requires ChooseTarget(db, d, action, time).Success?
    ensures ChooseTarget(db, d, action, time).value in AvailableProviders(db.env, d.saved, time, None)
    ensures d.op.state.Active? && !d.op.recipientInvalid && d.op.nextUserSendAt <= time && d.attempts != []
    ensures ChooseTarget(db, d, action, time).value.retryAt.None?
    ensures SendCount(d) < d.saved.maxSends
    ensures RetryAt(db.env.ledger, [AdmissionLimit(d.saved.recipient)], time).None?
              || RetryAt(db.env.ledger, [AdmissionLimit(d.saved.recipient)], time).value <= time
  {
    var available := AvailableProviders(db.env, d.saved, time, None);
    match action
    case SelectAction(choice) =>
      MatchingMembers(d.saved, choice, available);
      ChosenIsBest(Matching(d.saved, choice, available));
    case ResendAction =>
      FoundInstance(available, d.saved.steps[d.attempts[d.op.current.value].route.position].instance);
    case NextAction =>
      LaterThanMembers(available, d.attempts[d.op.current.value].route.position);
      ChosenIsBest(LaterThan(available, d.attempts[d.op.current.value].route.position));
  }

  /** The caller's access and an open policy are all that scheduling needs. */
  lemma SchedulingSucceeds(db: Db, operation: Id, position: nat, reason: Reason, principal: Id, time: Time)
    requires operation in db.deliveries
    requires RequireAccess(db.env.world, db.deliveries[operation].saved.project, principal, true).Success?
    requires PolicyOpen(db.env.world, db.deliveries[operation].saved)
    ensures ScheduleCommand(db, operation, position, reason, principal, time).result.Success?
  {
  }

  /** The intent that a successful command captures. */
  function CapturedIntent(w: World, saved: Saved, reason: Reason, principal: Id, time: Time): (i: Intent)
    requires RequireAccess(w, saved.project, principal, true).Success?
    requires CaptureAuthority(w, saved.project, saved.policy, Instances(saved)).Success?
  {
    Intent(saved.project, RequireAccess(w, saved.project, principal, true).value, w.projects[saved.project].sendEpoch,
           reason, time, CaptureAuthority(w, saved.project, saved.policy, Instances(saved)).value)
  }

  lemma StoredTwice(db: Db, operation: Id, d: Delivery, e: Delivery)
    requires operation in db.deliveries && |d.attempts| == |db.deliveries[operation].attempts|
    ensures Store(Store(db, operation, d), operation, e) == Store(db, operation, e)
  {
    assert db.deliveries[operation := d][operation := e] == db.deliveries[operation := e];
  }

  /** No rejection can follow the first write of an explicit send. */
  lemma RequestDecidedFirst(db: Db, operation: Id, principal: Id, action: Action, time: Time)
    requires operation in db.deliveries
    requires RequireAccess(db.env.world, db.deliveries[operation].saved.project, principal, true).Success?
    ensures var d := db.deliveries[operation];
            var target := ChooseTarget(db, d, action, time);
            var reply := RequestSendLocked(db, operation, principal, action, time);
            if target.Failure? then reply == Reply(db, Failure(target.error))
            else
              && CaptureAuthority(db.env.world, d.saved.project, d.saved.policy, Instances(d.saved)).Success?
              && var intent := CapturedIntent(db.env.world, d.saved, ReasonOf(action), principal, time);
                 var id := AttemptId(operation, |d.attempts|);
                 reply == Reply(
                   Store(db, operation, SendExplicit(d, target.value.position, ReasonOf(action), intent, time)).(
                     env := db.env.(ledger := Count(db.env.ledger, [AdmissionLimit(d.saved.recipient)], EventOf(id), time)),
                     trail := db.trail + [Explicit(id, d.saved.recipient, time)]),
                   Success(id))
  {
    var d := db.deliveries[operation];
    var target := ChooseTarget(db, d, action, time);
    if target.Success? {
      TargetOffered(db, d, action, time);
      FirstOfferedStep(db.env, d.saved, time, target.value);
      var s := Store(db, operation, Supersede(d, time));
      SchedulingSucceeds(s, operation, target.value.position, ReasonOf(action), principal, time);
      var intent := CapturedIntent(db.env.world, d.saved, ReasonOf(action), principal, time);
      StoredTwice(db, operation, Supersede(d, time), SendExplicit(d, target.value.position, ReasonOf(action), intent, time));
    }
  }

  /** Writing rows that carry one freshly captured intent. */
  lemma StoreCaptured(db: Db, operation: Id, e: Delivery, intent: Intent, principal: Id)
    requires DbValid(db) && operation in db.deliveries
    requires RowsValid(e) && Evolves(db.deliveries[operation], e) && e.op.state.Active?
    requires |e.attempts| <= |db.deliveries[operation].attempts| + 1
    requires e.intents == db.deliveries[operation].intents + [intent]
    requires var d := db.deliveries[operation];
             && RequireAccess(db.env.world, d.saved.project, principal, true).Success?
             && CaptureAuthority(db.env.world, d.saved.project, d.saved.policy, Instances(d.saved)).Success?
             && intent == CapturedIntent(db.env.world, d.saved, intent.action, principal, intent.createdAt)
    ensures DbValid(Store(db, operation, e)) && DbEvolves(db, Store(db, operation, e))
  {
    hide DbValid, DbEvolves, RowsValid, RequireAccess, CaptureAuthority, IntentEligible;
    var d := db.deliveries[operation];
    assert e.saved == d.saved;
    FreshCapture(db.env.world, d.saved, principal, Instances(d.saved), intent);
    ValidRows(db, operation);
    StoreKeeps(db, operation, e);
  }

  lemma RequestLockedValid(db: Db, operation: Id, principal: Id, action: Action, time: Time)
    requires DbValid(db) && operation in db.deliveries
    requires RequireAccess(db.env.world, db.deliveries[operation].saved.project, principal, true).Success?
    ensures DbValid(RequestSendLocked(db, operation, principal, action, time).db)
    ensures DbEvolves(db, RequestSendLocked(db, operation, principal, action, time).db)
  {
    hide DbValid, DbEvolves, RowsValid, Evolves;
    var d := db.deliveries[operation];
    var target := ChooseTarget(db, d, action, time);
    var reply := RequestSendLocked(db, operation, principal, action, time);
    RequestDecidedFirst(db, operation, principal, action, time);
    if target.Failure? {
      OtherTables(db, db);
    } else {
      TargetOffered(db, d, action, time);
      FirstOfferedStep(db.env, d.saved, time, target.value);
      var intent := CapturedIntent(db.env.world, d.saved, ReasonOf(action), principal, time);
      ValidRows(db, operation);
      SendExplicitKeeps(d, target.value.position, ReasonOf(action), intent, time);
      var e := SendExplicit(d, target.value.position, ReasonOf(action), intent, time);
      StoreCaptured(db, operation, e, intent, principal);
      OtherTables(Store(db, operation, e), reply.db);
      DbEvolvesTransitive(db, Store(db, operation, e), reply.db);
    }
  }

  /** A command's first attempt, right after its code was attached. */
  lemma InitialValid(db: Db, operation: Id, principal: Id, time: Time)
    requires DbValid(db) && operation in db.deliveries
    requires var d := db.deliveries[operation]; d.op.state.Active? && d.attempts == [] && !d.op.recipientInvalid
    ensures var r := InitialSend(db, operation, principal, time);
            DbValid(r.db) && DbEvolves(db, r.db)
  {
    hide DbValid, DbEvolves, RowsValid, Evolves;
    var d := db.deliveries[operation];
    var r := InitialSend(db, operation, principal, time);
    if r.result.Failure? {
      OtherTables(db, db);
    } else {
      var intent := CapturedIntent(db.env.world, d.saved, Initial, principal, time);
      ValidRows(db, operation);
      InitialKeeps(d, intent, time);
      StoreCaptured(db, operation, ScheduleExplicit(d, d.saved.initialPosition, Initial, intent, time), intent, principal);
    }
  }

  lemma ActivateLockedValid(db: Db, operation: Id, code: Id, time: Time)
    requires DbValid(db) && operation in db.deliveries && db.clock <= time
    requires db.deliveries[operation].op.state.Prepared?
    ensures var r := ActivateLocked(db, operation, code, time);
            && DbValid(r) && DbEvolves(db, r)
            && operation in r.deliveries
            && var d := r.deliveries[operation]; d.op.state.Active? && d.attempts == [] && !d.op.recipientInvalid
  {
    hide DbValid, DbEvolves, Evolves;
    var d := db.deliveries[operation];
    ValidRows(db, operation);
    PreparedSince(db, operation);
    ActivateKeeps(d, code, time);
    var s := Store(db, operation, Activate(d, code, time));
    StoreGrown(db, operation, Activate(d, code, time));
    OtherTables(s, ActivateLocked(db, operation, code, time));
    DbEvolvesTransitive(db, s, ActivateLocked(db, operation, code, time));
  }

  lemma PreparedSince(db: Db, operation: Id)
    requires DbValid(db) && operation in db.deliveries && db.deliveries[operation].op.state.Prepared?
    ensures db.deliveries[operation].op.nextUserSendAt <= db.clock
  {
    assert Unstarted(db.deliveries[operation], db.clock);
  }

  lemma CodelessPrepared(db: Db, operation: Id)
    requires DbValid(db) && operation in db.deliveries
    requires var d := db.deliveries[operation]; Live(d.op) && d.secrets.Some? && d.secrets.value.code.None?
    ensures db.deliveries[operation].op.state.Prepared?
  {
    ValidRows(db, operation);
  }

  lemma UnchangedIsKnown(w: World, saved: Saved, prepared: CapturedAuthority)
    requires PolicyUnchanged(w, saved, prepared) && StepsUnchanged(w, saved, prepared)
    ensures RouteKnown(w, saved)
  {
    hide InstanceAuthority;
    forall k | 0 <= k < |saved.steps|
      ensures RevisionKey(InstanceKey(saved.steps[k].instance), saved.steps[k].instanceRevision) in w.revisions
    {
      assert StepUnchanged(w, saved, prepared, k);
    }
  }

  /** What an admission establishes. */
  lemma AdmittedRows(db: Db, operation: Id, input: Admission, time: Time)
    requires Admit(db, operation, input, time).result.Success?
    ensures var r := Admit(db, operation, input, time).db;
            && operation !in db.deliveries
            && operation in r.deliveries
            && r.deliveries == db.deliveries[operation := r.deliveries[operation]]
            && RowsValid(r.deliveries[operation])
            && RouteKnown(db.env.world, r.deliveries[operation].saved)
            && r.deliveries[operation].intents == []
            && r.deliveries[operation].attempts == []
            && r.deliveries[operation].op.nextUserSendAt == time <= r.clock
            && r == db.(clock := r.clock, deliveries := r.deliveries, env := db.env.(ledger := r.env.ledger),
                        trail := db.trail + [Admitted(operation, input.saved.recipient, time)])
            && db.clock <= r.clock
  {
    var available := AvailableProviders(db.env, input.saved, time, None);
    var target := ResolveChoice(input.saved, input.choice, available);
    if input.choice.Some? {
      MatchingMembers(input.saved, input.choice.value, available);
      ChosenIsBest(Matching(input.saved, input.choice.value, available));
    } else {
      ChosenIsBest(available);
    }
    AvailableExact(db.env, input.saved, time, None, target.value);
    UnchangedIsKnown(db.env.world, input.saved, input.prepared);
    NewDeliveryKeeps(Admit(db, operation, input, time).db.deliveries[operation].saved);
  }

  lemma AdmitValid(db: Db, operation: Id, input: Admission, time: Time)
    requires DbValid(db)
    ensures DbValid(Admit(db, operation, input, time).db) && DbEvolves(db, Admit(db, operation, input, time).db)
  {
    hide RowsValid, Evolves, Admit, AliasValid, RouteKnown, WorldValid;
    var r := Admit(db, operation, input, time);
    if r.result.Failure? {
      RejectedAdmission(db, operation, input, time);
      OtherTables(db, db);
    } else {
      AdmittedRows(db, operation, input, time);
      forall op | op in db.deliveries ensures Evolves(db.deliveries[op], r.db.deliveries[op]) {
        EvolvesReflexive(db.deliveries[op]);
      }
      assert DeliveriesEvolve(db, r.db);
      AliasesLater(db, r.db);
      forall op | op in r.db.deliveries ensures RowsCaptured(r.db.env.world, r.db.deliveries[op]) {
        assert op != operation ==> RowsCaptured(db.env.world, db.deliveries[op]);
      }
      forall op | op in r.db.deliveries ensures Unstarted(r.db.deliveries[op], r.db.clock) {
        assert op != operation ==> Unstarted(db.deliveries[op], db.clock);
      }
    }
  }

  lemma RejectedAdmission(db: Db, operation: Id, input: Admission, time: Time)
    requires Admit(db, operation, input, time).result.Failure?
    ensures Admit(db, operation, input, time).db == db
  {
  }

  lemma CloseLockedValid(db: Db, operation: Id, time: Time)
    requires DbValid(db) && operation in db.deliveries
    ensures DbValid(CloseLocked(db, operation, time)) && DbEvolves(db, CloseLocked(db, operation, time))
  {
    hide DbValid, DbEvolves, RowsValid, Evolves;
    var d := db.deliveries[operation];
    ValidRows(db, operation);
    TerminateKeeps(d, Closed, time);
    StoreGrown(db, operation, Terminate(d, Closed, time));
  }

  // ---------------------------------------------- runtime/mutate.ts, projects/mutate.ts

  lemma AdministerValid(db: Db, command: Command)
    requires DbValid(db)
    ensures DbValid(AdministerWorld(db, command)) && DbEvolves(db, AdministerWorld(db, command))
  {
    hide RowsValid, RouteKnown, IntentCaptured, Advances, Evolves, AliasValid, Administer, WorldValid;
    var w := Administer(db.env.world, command);
    var a := AdministerWorld(db, command);
    AdministerAdvances(db.env.world, command);
    forall op | op in a.deliveries ensures RowsCaptured(w, a.deliveries[op]) {
      var d := db.deliveries[op];
      assert RowsCaptured(db.env.world, d);
      RouteKnownAdvances(db.env.world, w, d.saved);
      forall k | 0 <= k < |d.intents| ensures IntentCaptured(w, d.saved, d.intents[k]) {
        CapturedAdvances(db.env.world, w, d.saved, d.intents[k]);
      }
    }
    forall op | op in db.deliveries ensures Evolves(db.deliveries[op], a.deliveries[op]) {
      EvolvesReflexive(db.deliveries[op]);
    }
    forall alias | alias in a.correlations ensures AliasValid(a, alias, a.correlations[alias]) {
      SameAlias(db, a, alias, a.correlations[alias]);
    }
  }

  lemma SameAlias(a: Db, b: Db, alias: Alias, id: AttemptId)
    requires b.deliveries == a.deliveries && AliasValid(a, alias, id)
    ensures AliasValid(b, alias, id)
  {
  }
}
