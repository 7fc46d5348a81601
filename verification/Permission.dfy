/** Revocation reaches dispatch: once an intent may not use a provider instance, no attempt under it is ever
    committed there again, whatever administrators, clients and workers do next. */
module Permission {
  import opened Prelude
  import opened Records
  import opened RoutingInvariant
  import opened Authority
  import opened Quotas
  import opened Revocation
  import opened Eligibility
  import opened Engine
  import opened EngineInvariant
  import opened EngineSteps
  import opened EngineWrites
  import opened EngineFrames
  import opened EngineRuns

  /** The intent may use no route step of the instance. */
  ghost predicate Barred(w: World, saved: Saved, instance: Id, intent: Intent) {
    forall p: nat | p < |saved.steps| && saved.steps[p].instance == instance :: !UsableStep(w, saved, p, intent)
  }

  lemma IneligibleIsBarred(w: World, saved: Saved, instance: Id, intent: Intent)
    requires !IntentEligible(w, saved, intent)
    ensures Barred(w, saved, instance, intent)
  {
  }

  lemma BarredLater(v: World, w: World, saved: Saved, instance: Id, intent: Intent)
    requires Advances(v, w) && IntentCaptured(v, saved, intent) && RouteKnown(v, saved)
    requires Barred(v, saved, instance, intent)
    ensures Barred(w, saved, instance, intent)
  {
    hide UsableStep, Advances, IntentCaptured, RouteKnown;
    forall p: nat | p < |saved.steps| && saved.steps[p].instance == instance ensures !UsableStep(w, saved, p, intent) {
      if UsableStep(w, saved, p, intent) {
        UsableEarlier(v, w, saved, p, intent);
      }
    }
  }

  /** Every commitment is made on a step of its instance that its intent may use. */
  lemma CommitIsUsable(db: Db, w: Write)
    requires Allowed(db, w) && Commits(db, w)
    ensures w.Gating? && Addressable(db, w.attempt)
    ensures !Barred(db.env.world, db.deliveries[w.attempt.operation].saved, StepAt(db, w.attempt).instance, IntentAt(db, w.attempt))
  {
    hide RetryAt, AvailableProviders, NextProvider, IntentEligible, StepAuthorized, PolicyOpen;
    var id := w.attempt;
    var saved := db.deliveries[id.operation].saved;
    var intent := IntentAt(db, id);
    var available := AvailableProviders(db.env, saved, w.time, Some(intent));
    FoundInstance(available, StepAt(db, id).instance);
    var target := FindInstance(available, StepAt(db, id).instance).value;
    AvailableExact(db.env, saved, w.time, Some(intent), target);
    assert UsableStep(db.env.world, saved, target.position, intent);
  }

  /** Since `origin`, the intent has stayed barred and nothing under it was committed on the instance. */
  ghost predicate NoNewCommit(origin: Db, operation: Id, n: nat, instance: Id, db: Db)
    requires operation in origin.deliveries && n < |origin.deliveries[operation].intents|
  {
    var was := origin.deliveries[operation];
    && operation in db.deliveries
    && db.deliveries[operation].saved == was.saved
    && was.intents <= db.deliveries[operation].intents
    && Barred(db.env.world, was.saved, instance, was.intents[n])
    && forall id: AttemptId | Known(db, id) && Under(db, id, operation, n, instance) :: Known(origin, id)
  }

  predicate Under(db: Db, id: AttemptId, operation: Id, n: nat, instance: Id) {
    && Addressable(db, id)
    && id.operation == operation
    && AttemptAt(db, id).route.intent == n
    && StepAt(db, id).instance == instance
  }

  lemma NoNewCommitKept(origin: Db, operation: Id, n: nat, instance: Id, db: Db, w: Write)
    requires operation in origin.deliveries && n < |origin.deliveries[operation].intents|
    requires DbValid(db) && Allowed(db, w) && NoNewCommit(origin, operation, n, instance, db)
    ensures NoNewCommit(origin, operation, n, instance, Perform(db, w))
  {
    hide DbValid, Perform, Allowed, Barred, Commits, KeepsAuth, KeepsEvidence, IntentCaptured, RouteKnown, Advances, RowsValid;
    var was := origin.deliveries[operation];
    var b := Perform(db, w);
    WriteKeeps(db, w);
    WriteFramed(db, w);
    assert Evolves(db.deliveries[operation], b.deliveries[operation]);
    CapturedIntents(db, operation);
    BarredLater(db.env.world, b.env.world, was.saved, instance, was.intents[n]);
    forall id: AttemptId | Known(b, id) && Under(b, id, operation, n, instance) ensures Known(origin, id) {
      assert CommittedOf(b, id).Some?;
      if Commits(db, w) {
        CommitWrites(db, w);
        CommitIsUsable(db, w);
      }
      if CommittedOf(db, id).Some? {
        KnownSettled(db, id);
        AddressableLater(db, b, id);
        assert Under(db, id, operation, n, instance);
      } else {
        NewCommitUnder(db, b, w, id);
      }
    }
  }

  lemma CapturedIntents(db: Db, operation: Id)
    requires DbValid(db) && operation in db.deliveries
    ensures RouteKnown(db.env.world, db.deliveries[operation].saved)
    ensures forall k | 0 <= k < |db.deliveries[operation].intents| ::
              IntentCaptured(db.env.world, db.deliveries[operation].saved, db.deliveries[operation].intents[k])
  {
    assert RowsCaptured(db.env.world, db.deliveries[operation]);
  }

  lemma NewCommitUnder(db: Db, b: Db, w: Write, id: AttemptId)
    requires DbValid(db) && DbEvolves(db, b) && Allowed(db, w) && Commits(db, w) && w.attempt == id
    ensures Addressable(db, id) && Addressable(b, id)
    ensures StepAt(b, id) == StepAt(db, id) && IntentAt(b, id) == IntentAt(db, id)
    ensures AttemptAt(b, id).route == AttemptAt(db, id).route
  {
    hide DbValid;
    AddressableLater(db, b, id);
  }

  lemma NoNewCommitInductive(origin: Db, operation: Id, n: nat, instance: Id)
    requires operation in origin.deliveries && n < |origin.deliveries[operation].intents|
    ensures Inductive(x => NoNewCommit(origin, operation, n, instance, x))
  {
    hide DbValid, Allowed, Perform, NoNewCommit;
    forall db: Db, w: Write | Allowed(db, w) && DbValid(db) && NoNewCommit(origin, operation, n, instance, db)
      ensures NoNewCommit(origin, operation, n, instance, Perform(db, w))
    {
      NoNewCommitKept(origin, operation, n, instance, db, w);
    }
  }

  /** Once an intent may use no step of an instance, every run that follows commits nothing more under it there,
      even after reactivation, re-enabling or a new grant. */
  lemma BarredIntentNeverDispatches(db: Db, steps: seq<Step>, operation: Id, n: nat, instance: Id, id: AttemptId)
    requires DbValid(db) && HonestRun(db, steps)
    requires operation in db.deliveries && n < |db.deliveries[operation].intents|
    requires Barred(db.env.world, db.deliveries[operation].saved, instance, db.deliveries[operation].intents[n])
    requires Known(Run(db, steps), id) && Under(Run(db, steps), id, operation, n, instance)
    ensures Known(db, id)
  {
    hide DbValid, HonestRun, Run, Inductive, Barred;
    NoNewCommitInductive(db, operation, n, instance);
    RunReached(db, steps, x => NoNewCommit(db, operation, n, instance, x));
  }

  /** In particular an intent whose project, principal, policy or grant was withdrawn dispatches nowhere. */
  lemma IneligibleIntentNeverDispatches(db: Db, steps: seq<Step>, id: AttemptId)
    requires DbValid(db) && HonestRun(db, steps)
    requires Known(Run(db, steps), id) && Addressable(Run(db, steps), id)
    requires id.operation in db.deliveries
    requires var d := db.deliveries[id.operation];
             var n := AttemptAt(Run(db, steps), id).route.intent;
             n < |d.intents| && !IntentEligible(db.env.world, d.saved, d.intents[n])
    ensures Known(db, id)
  {
    hide DbValid, HonestRun, Run, IntentEligible, Barred;
    var d := db.deliveries[id.operation];
    var n := AttemptAt(Run(db, steps), id).route.intent;
    var instance := StepAt(Run(db, steps), id).instance;
    IneligibleIsBarred(db.env.world, d.saved, instance, d.intents[n]);
    BarredIntentNeverDispatches(db, steps, id.operation, n, instance, id);
  }
}
