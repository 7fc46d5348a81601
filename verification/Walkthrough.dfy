/** Two runs, step by step from an empty deployment: a whole delivery, so that what the results over reachable states
    speak of does occur, and a submission that is rejected halfway. */
module Walkthrough {
  import opened Prelude
  import opened Records
  import opened Routing
  import opened Authority
  import opened Quotas
  import opened QuotaProofs
  import opened Eligibility
  import opened Engine
  import opened EngineInvariant
  import opened EngineWrites
  import opened EngineRuns
  import opened Rejection

  /** Limits that nothing in the ledger uses are open. */
  lemma {:induction false} UnusedLimitsOpen(l: Ledger, limits: seq<Limit>, time: Time)
    requires forall k | 0 <= k < |limits| :: LimitValid(limits[k]) && forall a | a in l.allocations :: !Uses(a, limits[k])
    ensures RetryAt(l, limits, time).None?
  {
    if limits != [] {
      var limit := limits[|limits|-1];
      UnusedLimitsOpen(l, limits[..|limits|-1], time);
      BlockedMeansFull(l, limit, time);
      assert Counted(l, limit, time - limit.window) == {};
    }
  }

  // ------------------------------------------------------------------- administration

  const Policy1 := PolicyKey(1)
  const Account1 := AccountKey(1)
  const Instance1 := InstanceKey(1)

  const SetupSettings := Settings(10, 10, 10, 100, 100)

  /** A project whose sends need the authority, and one enabled and granted provider instance. */
  const SetupWorld := World(
    map[1 := Project(ProjectActive, 1, true, 10, 10)],
    [PrincipalGrant(1, 1, false)],
    map[Policy1 := Resource(Enabled, 1, 3, 1, 0, [], 0), Account1 := Resource(Enabled, 1, 2, 1, 0, [], 0),
        Instance1 := Resource(Enabled, 1, 3, 1, 1, [], 0)],
    [RuntimeGrant(1, Policy1, false), RuntimeGrant(1, Instance1, false)],
    map[RevisionKey(Policy1, 1) := true, RevisionKey(Account1, 1) := true, RevisionKey(Instance1, 1) := true],
    map[])

  function Fresh(world: World, trail: seq<Fact>): Db {
    EmptyDb(SetupSettings, 0).(env := EmptyDb(SetupSettings, 0).env.(world := world), trail := trail)
  }

  lemma AdministeredReachable(world: World, trail: seq<Fact>, command: Command)
    requires Reachable(Fresh(world, trail))
    ensures Reachable(Fresh(Administer(world, command), trail + [Administered(command)]))
  {
    hide Administer, Reachable;
    ReachableNext(Fresh(world, trail), AdministerStep(command));
  }

  lemma CreatesProject() returns (world: World, trail: seq<Fact>)
    ensures Reachable(Fresh(world, trail))
    ensures world == World(SetupWorld.projects, SetupWorld.principalGrants, map[], [], map[], map[])
  {
    hide Reachable;
    EmptyReachable(SetupSettings, 0);
    var none := World(map[], [], map[], [], map[], map[]);
    assert Fresh(none, []) == EmptyDb(SetupSettings, 0);
    var command := CreateProject(1, Project(ProjectActive, 0, true, 10, 10), [1]);
    AdministeredReachable(none, [], command);
    assert [] + [Administered(command)] == [Administered(command)];
    world, trail := Administer(none, command), [Administered(command)];
    assert [1][..0] == [] && AddGrants([], 1, [1]) == [PrincipalGrant(1, 1, false)];
  }

  lemma Enables(world: World, trail: seq<Fact>, resource: ResourceKey, account: Id) returns (next: World, after: seq<Fact>)
    requires Reachable(Fresh(world, trail)) && resource !in world.resources
    ensures Reachable(Fresh(next, after))
    ensures next == world.(resources := world.resources[resource := Resource(Enabled, 1, 2, 1, account, [], 0)],
                           revisions := world.revisions[RevisionKey(resource, 1) := true])
  {
    hide Reachable;
    var create, enable := CreateResource(resource, account, [], 0), Transition(resource, Enabled);
    AdministeredReachable(world, trail, create);
    AdministeredReachable(Administer(world, create), trail + [Administered(create)], enable);
    next, after := Administer(Administer(world, create), enable), trail + [Administered(create)] + [Administered(enable)];
  }

  lemma Grants(world: World, trail: seq<Fact>, resource: ResourceKey) returns (next: World, after: seq<Fact>)
    requires Reachable(Fresh(world, trail)) && 1 in world.projects
    requires resource in world.resources && world.resources[resource].state.Enabled?
    requires forall k | 0 <= k < |world.runtimeGrants| :: world.runtimeGrants[k].resource != resource
    ensures Reachable(Fresh(next, after))
    ensures next == Touch(world, resource).(runtimeGrants := world.runtimeGrants + [RuntimeGrant(1, resource, false)])
  {
    hide Reachable;
    AdministeredReachable(world, trail, GrantRuntime(1, resource));
    next, after := Administer(world, GrantRuntime(1, resource)), trail + [Administered(GrantRuntime(1, resource))];
  }

  lemma SetsUp() returns (trail: seq<Fact>)
    ensures Reachable(Fresh(SetupWorld, trail))
  {
    hide Reachable, Fresh;
    var w0, t0 := CreatesProject();
    var w1, t1 := Enables(w0, t0, Policy1, 0);
    var w2, t2 := Enables(w1, t1, Account1, 0);
    var w3, t3 := Enables(w2, t2, Instance1, 1);
    var w4, t4 := Grants(w3, t3, Policy1);
    var w5, t5 := Grants(w4, t4, Instance1);
    assert w5 == SetupWorld;
    trail := t5;
  }

  // ------------------------------------------------------------------------ the delivery

  const Step1 := RouteStep(1, 1, 1, 0, 1000, 0, true, 4, 8)

  const Requested := Saved(1, 1, 1, 1, [Step1], false, 3, 1000, true, true, 0, 100000, 0)

  const OneStepRoute: Engine.Admission := Engine.Admission.Admission(Requested, Intent1.authority, true, ForBackend, None, 100000)

  const Admitted1 := Requested.(createdAt := 10, authorizationRequired := true)

  const Intent1: Intent := Intent(1, 0, 1, Initial, 10, CapturedAuthority(0, 1, [StepAuthority(1, 1, 1, 1)]))

  const Attempt1 := AttemptId(1, 0)

  /** Nothing in the ledger is counted as a send. */
  predicate Unsent(l: Ledger) {
    forall a | a in l.allocations :: !a.kind.Send?
  }

  predicate Stage(db: Db, clock: Time, d: Delivery) {
    && db.clock == clock
    && db.env.world == SetupWorld && db.env.settings == SetupSettings && db.env.restrictions == map[]
    && db.deliveries == map[1 := d] && d.saved == Admitted1 && d.intents == [Intent1] && |d.attempts| == 1
    && db.blocks == map[] && db.inbox == [] && db.observations == []
    && db.correlations == map[Alias(1, AttemptReference(Attempt1)) := Attempt1]
  }

  lemma SetupAuthority()
    ensures InstanceAuthority(SetupWorld, 1, 1, None) == Some(StepAuthority(1, 1, 1, 1))
    ensures InstanceAuthority(SetupWorld, 1, 1, Some(1)) == Some(StepAuthority(1, 1, 1, 1))
    ensures CaptureAuthority(SetupWorld, 1, 1, [1]) == Success(Intent1.authority)
    ensures PolicyOpen(SetupWorld, Requested) && PolicyUnchanged(SetupWorld, Requested, Intent1.authority)
    ensures StepsUnchanged(SetupWorld, Requested, Intent1.authority)
    ensures RequireAccess(SetupWorld, 1, 1, true) == Success(0)
    ensures IntentEligible(SetupWorld, Admitted1, Intent1)
  {
    assert ActiveGrantFrom(SetupWorld.runtimeGrants, 1, Instance1, 1) == Some(1);
    assert ActiveGrant(SetupWorld, 1, Instance1) == Some(1);
    assert InstanceAuthority(SetupWorld, 1, 1, None) == Some(StepAuthority(1, 1, 1, 1));
    assert [1][..|[1]|-1] == [] && CaptureSteps(SetupWorld, 1, []) == [];
    assert CaptureSteps(SetupWorld, 1, [1]) == [StepAuthority(1, 1, 1, 1)];
  }

  lemma SendsOpen(env: Environment, saved: Saved, time: Time)
    requires env.world == SetupWorld && env.settings == SetupSettings && Unsent(env.ledger)
    requires saved.project == 1 && saved.recipient == 1
    ensures RetryAt(env.ledger, CommonLimits(env, saved), time).None?
    ensures RetryAt(env.ledger, SendLimits(env, saved, 1), time).None?
  {
    assert SharedScopes(SetupWorld, [] + []) == [];
    UnusedLimitsOpen(env.ledger, CommonLimits(env, saved), time);
    UnusedLimitsOpen(env.ledger, SendLimits(env, saved, 1), time);
  }

  lemma OneOpenStep(env: Environment, saved: Saved, time: Time, intent: Option<Intent>)
    requires env.world == SetupWorld && env.settings == SetupSettings && env.restrictions == map[] && Unsent(env.ledger)
    requires saved == Requested || saved == Admitted1
    requires time < 99000 && (intent == None || intent == Some(Intent1))
    ensures AvailableProviders(env, saved, time, intent) == [Availability(0, 1, None)]
  {
    SetupAuthority();
    SendsOpen(env, saved, time);
    hide InstanceAuthority, RetryAt, SendLimits, CommonLimits;
    assert FindStep(Intent1.authority.steps, 1) == Some(StepAuthority(1, 1, 1, 1));
    assert Candidate(env, saved, time, intent, 0) == Some(Availability(0, 1, None));
    assert Candidates(env, saved, time, intent, 0) == [];
  }

  /** The one attempt of the operation, with what the steps change. */
  function Rows(auth: Authorization, evidence: Evidence, invocation: Invocation, committedAt: Option<Time>): Delivery {
    Delivery(
      Admitted1,
      Routing(Active, None, 1, false, false, Some(0), if committedAt.Some? then 1040 else 1010, committedAt.Some?),
      [Intent1],
      [Attempt(AttemptRoute(0, 0, 1, Initial, 10), evidence, auth, invocation, committedAt,
               if committedAt.Some? then Some(31040) else None)],
      Some(Secrets(Some(7))))
  }

  const NoEvidence := Evidence(Pending, None, None, None)

  const Created1 := Rows(Authorization(Awaiting, 0, 0, None, None, None, None), NoEvidence, NotStarted, None)

  lemma AdmissionOpen(env: Environment)
    requires env.ledger == Ledger(map[], {}) && env.settings == SetupSettings
    ensures RetryAt(env.ledger, AdmissionLimits(env, 1), 10).None?
    ensures Unsent(Count(env.ledger, AdmissionLimits(env, 1), OperationEvent(1), 10))
  {
    var limits := AdmissionLimits(env, 1);
    UnusedLimitsOpen(env.ledger, limits, 10);
    var first := [limits[0]];
    assert limits[..|limits|-1] == first && first[..|first|-1] == [];
    var counted := Count(env.ledger, first, OperationEvent(1), 10);
    assert counted == CountOne(Count(env.ledger, [], OperationEvent(1), 10), limits[0], OperationEvent(1), 10);
    assert Count(env.ledger, [], OperationEvent(1), 10) == env.ledger;
    assert Unsent(counted);
    assert Count(env.ledger, limits, OperationEvent(1), 10) == CountOne(counted, limits[1], OperationEvent(1), 10);
  }

  lemma AdmitsOperation(db: Db) returns (next: Db)
    requires db.env == Environment(SetupSettings, SetupWorld, Ledger(map[], {}), map[]) && db.clock <= 10
    requires db.deliveries == map[]
    ensures Admit(db, 1, OneStepRoute, 10) == Reply(next, Success(1))
    ensures next == db.(clock := 10, deliveries := map[1 := NewDelivery(Admitted1)], env := next.env, trail := next.trail)
    ensures next.env == db.env.(ledger := next.env.ledger) && Unsent(next.env.ledger)
    ensures next.trail == db.trail + [Fact.Admitted(1, 1, 10)]
  {
    SetupAuthority();
    AdmissionOpen(db.env);
    OneOpenStep(db.env, Requested, 10, None);
    hide AvailableProviders, RetryAt, PolicyUnchanged, StepsUnchanged, Count, AdmissionLimits;
    next := Admit(db, 1, OneStepRoute, 10).db;
  }

  lemma AttachesCode(db: Db) returns (next: Db)
    requires db.env.world == SetupWorld && db.env.settings == SetupSettings && db.env.restrictions == map[]
    requires db.clock == 10 && db.deliveries == map[1 := NewDelivery(Admitted1)] && db.correlations == map[]
    requires db.blocks == map[] && db.inbox == [] && db.observations == []
    ensures AttachCode(db, 1, 1, Code(7, 6), 10) == Reply(next, Success(Attempt1))
    ensures Stage(next, 10, Created1) && next.env == db.env
    ensures next.trail == db.trail + [Fact.Activated(1, 10)]
  {
    SetupAuthority();
    hide CaptureAuthority, RequireAccess;
    assert Instances(Admitted1) == [1];
    next := AttachCode(db, 1, 1, Code(7, 6), 10).db;
    assert ExpireOperation(db, 1, 10) == db;
    assert next.deliveries[1] == Created1;
  }

  lemma CreatesOperation(ready: Db) returns (db: Db)
    requires ready.env == Environment(SetupSettings, SetupWorld, Ledger(map[], {}), map[]) && ready.clock == 0
    requires ready.deliveries == map[] && ready.correlations == map[] && ready.blocks == map[] && ready.inbox == []
    requires ready.observations == []
    ensures CreateOperation(ready, 1, 1, OneStepRoute, Code(7, 6), 10, 10) == db
    ensures Stage(db, 10, Created1) && Unsent(db.env.ledger)
  {
    SetupAuthority();
    hide Admit, AttachCode, RequireAccess, Unsent, IntentEligible, CaptureAuthority, PolicyUnchanged, StepsUnchanged, PolicyOpen;
    var admitted := AdmitsOperation(ready);
    db := AttachesCode(admitted);
  }

  lemma Creates() returns (db: Db)
    ensures Reachable(db) && Stage(db, 10, Created1) && Unsent(db.env.ledger)
  {
    hide Reachable, CreateOperation, Stage, Unsent;
    var trail := SetsUp();
    var ready := Fresh(SetupWorld, trail);
    db := CreatesOperation(ready);
    ReachableNext(ready, CreateStep(1, 1, OneStepRoute, Code(7, 6), 10, 10));
  }

  // ----------------------------------------------------------------- authority and gate

  const GivenClaim := Claim(Attempt1, 1, 0)

  const Claimed1 := Rows(Authorization(Awaiting, 1, 0, None, Some(15020), None, None), NoEvidence, NotStarted, None)

  const Approved1 := Rows(Authorization(Approved, 1, 0, None, None, Some(30), Some(60000)), NoEvidence, NotStarted, None)

  const Dispatching1 := Rows(Approved1.attempts[0].auth, Evidence(Dispatching, Some(Unknown), None, None), Committed, Some(40))

  lemma NotDue(db: Db, d: Delivery, clock: Time, time: Time)
    requires Stage(db, clock, d) && clock <= time < 99000
    ensures ExpireOperation(db, 1, time) == db.(clock := time)
  {
  }

  lemma Claims(db: Db) returns (next: Db)
    requires Reachable(db) && Stage(db, 10, Created1)
    ensures Reachable(next) && Stage(next, 20, Claimed1) && next.env == db.env
    ensures next.trail == db.trail + [Fact.Claimed(GivenClaim, 20)]
  {
    hide Reachable;
    NotDue(db, Created1, 10, 20);
    SetupAuthority();
    hide IntentEligible, ExpireOperation;
    ReachableNext(db, ClaimStep(Attempt1, 1, 20, 20));
    next := ClaimAttempt(db, Attempt1, 1, 20, 20);
    assert next.deliveries[1] == Claimed1;
  }

  lemma Approves(db: Db) returns (next: Db)
    requires Reachable(db) && Stage(db, 20, Claimed1) && WasClaimed(db, GivenClaim)
    ensures Reachable(next) && Stage(next, 30, Approved1) && next.env == db.env && next.trail == db.trail
  {
    hide Reachable, WasClaimed;
    NotDue(db, Claimed1, 20, 30);
    SetupAuthority();
    hide IntentEligible, ExpireOperation;
    ReachableNext(db, FinishStep(GivenClaim, Approve(60000), 30, 30));
    next := FinishAttempt(db, GivenClaim, Approve(60000), 30, 30);
    assert next.deliveries[1] == Approved1;
  }

  lemma GatePermits(db: Db)
    requires Stage(db, 40, Approved1) && Unsent(db.env.ledger)
    ensures Addressable(db, Attempt1) && GateVerdictAt(db, Attempt1, 1, 40, 40).Commit?
  {
    SetupAuthority();
    SendsOpen(db.env, Admitted1, 40);
    OneOpenStep(db.env, Admitted1, 40, Some(Intent1));
    hide IntentEligible, AvailableProviders, RetryAt, CommonLimits, Unsent, NextProvider;
    assert CommittedAttempts(Approved1.attempts) == {};
  }

  lemma GateCommits(db: Db)
    requires Stage(db, 40, Approved1) && Unsent(db.env.ledger)
    ensures Addressable(db, Attempt1)
    ensures var next := GateLocked(db, Attempt1, 1, 40, 40);
            && Stage(next, 40, Dispatching1)
            && next.reserved == db.reserved + {Attempt1} && next.trail == db.trail + [Dispatched(Attempt1, 1, 40)]
  {
    hide Unsent, SendLimits, Count, ExtendAdmission, GateVerdictOf, ViewGate;
    GatePermits(db);
    assert GateLocked(db, Attempt1, 1, 40, 40).deliveries[1] == Dispatching1;
  }

  lemma Commits(db: Db) returns (next: Db)
    requires Reachable(db) && Stage(db, 30, Approved1) && Unsent(db.env.ledger)
    ensures Reachable(next) && Stage(next, 40, Dispatching1)
    ensures Attempt1 in next.reserved && next.trail == db.trail + [Dispatched(Attempt1, 1, 40)]
  {
    hide Reachable, ExpireOperation, GateLocked;
    NotDue(db, Approved1, 30, 40);
    GateCommits(db.(clock := 40));
    ReachableNext(db, GateStep(Attempt1, 1, 40, 40));
    next := DispatchGate(db, Attempt1, 1, 40, 40);
  }

  lemma Calls(db: Db) returns (next: Db)
    requires Reachable(db) && Stage(db, 40, Dispatching1) && Attempt1 in db.reserved
    ensures Reachable(next) && Stage(next, 40, Dispatching1)
    ensures next.trail == db.trail + [Called(Attempt1)]
  {
    hide Reachable;
    ReachableNext(db, InvokeStep(Attempt1));
    next := Invoke(db, Attempt1);
  }

  // --------------------------------------------------------------------- the evidence

  const Request1 := ProviderReference(5)

  const Waiting1 := InboxRow(1, 9, Request1, Delivered, None, None, false, false)

  const Report := CallbackEvent(9, Request1, None, ReportDelivered, None, None)

  const Accepted1 := Dispatching1.(attempts := [Dispatching1.attempts[0].(
    evidence := Evidence(Accepted, Some(WasAccepted), None, None))])

  const Delivered1 := Accepted1.(
    attempts := [Accepted1.attempts[0].(evidence := Evidence(Delivered, Some(WasAccepted), None, None))],
    op := Accepted1.op.(automaticStopped := true))

  lemma InsertsReport(db: Db)
    requires Stage(db, 40, Dispatching1)
    ensures Enumerates([Request1], BatchReferences(db, 1, [Report]))
    ensures Ingest(db, 1, [Report], [Request1], 40, 40) == db.(inbox := [Waiting1])
  {
    var next := db.(inbox := [Waiting1]);
    assert [Report][..|[Report]|-1] == [] && [Request1][..|[Request1]|-1] == [];
    assert InsertEvents(db, 1, []) == Some(db) && !Received(db, 1, 9);
    assert db.inbox + [Waiting1] == [Waiting1] && InsertRow(db, 1, Report) == next;
    assert InsertEvent(db, 1, Report) == Some(next);
    assert InsertEvents(db, 1, [Report]) == InsertEvent(db, 1, Report);
    assert ReconcileAll(next, 1, [], 40, 40) == next;
    assert BatchReferences(db, 1, []) == {} && EventReferences(db, 1, Report) == {Request1};
    assert Request1 in [Request1];
  }

  /** The callback arrives before the response that registers its reference, and waits. */
  lemma CallbackWaits(db: Db) returns (next: Db)
    requires Reachable(db) && Stage(db, 40, Dispatching1)
    ensures Reachable(next) && next == db.(inbox := [Waiting1])
  {
    hide Reachable, BatchReferences, Enumerates, Ingest;
    InsertsReport(db);
    ReachableNext(db, IngestStep(1, [Report], [Request1], 40, 40));
    next := db.(inbox := [Waiting1]);
  }

  /** The database without what has arrived and without further aliases. */
  function Bare(db: Db): Db {
    db.(inbox := [], observations := [], correlations := map[Alias(1, AttemptReference(Attempt1)) := Attempt1])
  }

  /** One merge of evidence that schedules nothing. */
  lemma Merges(db: Db, d: Delivery, outcome: Outcome, source: Source, e: Delivery)
    requires Stage(Bare(db), 50, d)
    requires d.attempts[0].route.position == 0 && d.attempts[0].route.intent == 0
    requires !outcome.state.Failed? && outcome.retryAt == None && |e.attempts| == 1
    requires RecordEvidence(d, 0, outcome) == e
    ensures Merge(db, Attempt1, outcome, source, 50) == db.(
              deliveries := map[1 := e], observations := db.observations + [Observation(Attempt1, outcome.state, source)])
  {
    hide RecordEvidence, IntentEligible, AvailableProviders, NextProvider;
    assert db.deliveries[1 := e] == map[1 := e];
  }

  lemma Evidence1()
    ensures RecordEvidence(Dispatching1, 0, AcceptedOutcome) == Accepted1
    ensures RecordEvidence(Accepted1, 0, CallbackOutcome(Waiting1)) == Delivered1
  {
    assert RecordEvidence(Dispatching1, 0, AcceptedOutcome).attempts == Accepted1.attempts;
    assert RecordEvidence(Accepted1, 0, CallbackOutcome(Waiting1)).attempts == Delivered1.attempts;
  }

  /** The response registers the provider's reference, and the waiting callback is applied with it. */
  lemma AcceptanceDrains(db: Db) returns (next: Db)
    requires Stage(db.(inbox := []), 50, Dispatching1) && db.inbox == [Waiting1]
    ensures Addressable(db, Attempt1) && Acknowledge(db, Attempt1, Some(5), 50, 50) == Some(next)
    ensures next.deliveries == map[1 := Delivered1] && next.inbox == [Waiting1.(processed := true)]
    ensures next.trail == db.trail && next.clock == 50
    ensures next.observations == [Observation(Attempt1, Accepted, Response), Observation(Attempt1, Delivered, Callback(0))]
  {
    hide RecordEvidence, Merge, ExpireOperation;
    Evidence1();
    Merges(db, Dispatching1, AcceptedOutcome, Response, Accepted1);
    var accepted := Merge(db, Attempt1, AcceptedOutcome, Response, 50);
    var alias := Alias(1, Request1);
    var aliased := Register(accepted, alias, Attempt1).value;
    next := Reconcile(aliased, alias, 50, 50);
    Drains(aliased);
  }

  lemma Drains(db: Db)
    requires Stage(Bare(db), 50, Accepted1)
    requires db.inbox == [Waiting1] && Alias(1, Request1) in db.correlations && db.correlations[Alias(1, Request1)] == Attempt1
    ensures Reconcile(db, Alias(1, Request1), 50, 50) == db.(
              deliveries := map[1 := Delivered1], inbox := [Waiting1.(processed := true)],
              observations := db.observations + [Observation(Attempt1, Delivered, Callback(0))])
  {
    hide RecordEvidence, Merge;
    Evidence1();
    var alias := Alias(1, Request1);
    assert ExpireOperation(db, 1, 50) == db;
    Merges(db, Accepted1, CallbackOutcome(Waiting1), Callback(0), Delivered1);
    assert ApplyRows(db, alias, Attempt1, 1, 50, 0) == db;
    assert ApplyRows(db, alias, Attempt1, 1, 50, 1) == ApplyRow(db, Attempt1, 0, 50);
  }

  lemma Accepts(db: Db) returns (next: Db)
    requires Reachable(db) && db.inbox == [Waiting1] && Stage(db.(inbox := []), 40, Dispatching1)
    ensures Reachable(next)
    ensures next.deliveries == map[1 := Delivered1] && next.inbox == [Waiting1.(processed := true)] && next.trail == db.trail
    ensures next.observations == [Observation(Attempt1, Accepted, Response), Observation(Attempt1, Delivered, Callback(0))]
  {
    hide Reachable, Acknowledge, ExpireOperation;
    var expired := db.(clock := 50);
    Unmoved(db, 50);
    next := AcceptanceDrains(expired);
    assert Ingest(next, 1, [], [], 50, 50) == next;
    ReachableNext(db, AcceptedStep(Attempt1, Some(5), [], [], 50, 50));
  }

  lemma Unmoved(db: Db, time: Time)
    requires db.clock <= time < 99000 && db.deliveries == map[1 := Dispatching1]
    ensures ExpireOperation(db, 1, time) == db.(clock := time)
  {
  }

  /** A reachable state in which an authorized attempt was claimed, approved, committed, called once and delivered,
      although its callback arrived before the response that tells whose it is. */
  lemma DeliveryCompletes() returns (db: Db)
    ensures Reachable(db) && 1 in db.deliveries && db.deliveries[1].saved.authorizationRequired
    ensures Known(db, Attempt1) && AttemptAt(db, Attempt1).evidence.state.Delivered?
    ensures db.inbox == [Waiting1.(processed := true)]
    ensures db.observations == [Observation(Attempt1, Accepted, Response), Observation(Attempt1, Delivered, Callback(0))]
    ensures 3 <= |db.trail|
    ensures db.trail[|db.trail|-3..] == [Fact.Claimed(GivenClaim, 20), Dispatched(Attempt1, 1, 40), Called(Attempt1)]
  {
    hide Reachable, Unsent, Stage;
    var created := Creates();
    var claimed := Claims(created);
    assert WasClaimed(claimed, GivenClaim) by {
      assert claimed.trail[|created.trail|] == Fact.Claimed(GivenClaim, 20);
    }
    var approved := Approves(claimed);
    var committed := Commits(approved);
    var called := Calls(committed);
    var waiting := CallbackWaits(called);
    assert waiting.(inbox := []) == called by { assert Stage(called, 40, Dispatching1); Uninvolved(called); }
    db := Accepts(waiting);
  }

  lemma Uninvolved(db: Db)
    requires Stage(db, 40, Dispatching1)
    ensures db.inbox == []
  {
  }

  // ------------------------------------------------------------- the stranded operation

  const DisabledPolicy := Transition(Policy1, Disabled)

  lemma Prepares() returns (db: Db)
    ensures Reachable(db) && db.clock == 10
    ensures db.env.world == SetupWorld && db.deliveries == map[1 := NewDelivery(Admitted1)]
  {
    hide Reachable, Admit;
    var trail := SetsUp();
    var ready := Fresh(SetupWorld, trail);
    SetupAuthority();
    db := AdmitsOperation(ready);
    assert Prepare(ready, 1, 1, OneStepRoute, 10) == db;
    ReachableNext(ready, PrepareStep(1, 1, OneStepRoute, 10));
  }

  /** The project's policy is disabled between preparation and submission. */
  lemma Disables() returns (db: Db)
    ensures Reachable(db) && db.clock == 10
    ensures db.env.world == Administer(SetupWorld, DisabledPolicy) && db.deliveries == map[1 := NewDelivery(Admitted1)]
  {
    hide Reachable, Administer;
    var prepared := Prepares();
    ReachableNext(prepared, AdministerStep(DisabledPolicy));
    db := AdministerWorld(prepared, DisabledPolicy);
  }

  lemma AwaitsButMayNot(db: Db)
    requires db.env.world == Administer(SetupWorld, DisabledPolicy) && db.deliveries == map[1 := NewDelivery(Admitted1)]
    ensures CheckAccess(db, 1, 1).None? && !PolicyHeld(db.env.world, Admitted1)
    ensures ExpireOperation(db, 1, 20).deliveries == db.deliveries && AwaitsCode(NewDelivery(Admitted1), Code(7, 6))
  {
    SetupAuthority();
  }

  /** The failing family is reached by ordinary use: the policy of a prepared operation is disabled, the submission of
      a code that fits is rejected, and yet the operation is active with its code attached and nothing scheduled. */
  lemma SubmitCanStrand() returns (db: Db)
    ensures Reachable(db) && CheckAccess(db, 1, 1).None?
    ensures var reply := Submit(db, 1, 1, Code(7, 6), 20);
            && reply.result == Failure(PolicyNotAllowed) && Reachable(reply.db)
            && 1 in reply.db.deliveries && Stranded(reply.db.deliveries[1])
  {
    hide Reachable, DbValid, Administer, Submit, PolicyHeld, AwaitsCode, CheckAccess;
    db := Disables();
    RoutingHolds(db, 1);
    AwaitsButMayNot(db);
    SubmitIsAtomicExactlyWhenPolicyHeld(db, 1, 1, Code(7, 6), 20);
    ReachableNext(db, SubmitStep(1, 1, Code(7, 6), 20));
  }
}
