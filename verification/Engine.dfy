/** The delivery engine as one state and its serialized transactions. Providers, the send authority,
    crashes, duplicate jobs and callbacks are whoever picks the next transaction and its arguments. */
module Engine {
  import opened Prelude
  import opened Records
  import opened Routing
  import opened RoutingInvariant
  import opened Authority
  import opened Quotas
  import opened Eligibility

  /** How providers name an attempt; provider request ids are kept as injective digests. */
  datatype Reference = AttemptReference(attempt: AttemptId) | ProviderReference(request: Id)

  datatype Alias = Alias(instance: Id, reference: Reference)

  datatype CallbackStatus = ReportAccepted | ReportDelivered | ReportFailed | ReportCancelled

  datatype CallbackEvent = CallbackEvent(
    key: Id,
    reference: Reference,
    request: Option<Id>,
    status: CallbackStatus,
    diagnosticCode: Option<Diagnostic>,
    revisions: Option<set<nat>>)

  /** Rows are kept in arrival order; a dropped row was deleted by retention, and only its place is left. */
  datatype InboxRow = InboxRow(
    instance: Id,
    key: Id,
    reference: Reference,
    status: EvidenceState,
    diagnosticCode: Option<Diagnostic>,
    revisions: Option<set<nat>>,
    processed: bool,
    dropped: bool)

  datatype Source = Response | Callback(row: nat) | LocalCheck | RecoveryCheck

  /** One application of evidence to an attempt, in application order. */
  datatype Observation = Observation(attempt: AttemptId, state: EvidenceState, source: Source)

  /** What has durably happened, oldest first. */
  datatype Fact =
    | Admitted(operation: Id, recipient: Id, time: Time)
    | Activated(operation: Id, time: Time)
    | Explicit(attempt: AttemptId, recipient: Id, time: Time)
    | Claimed(claim: Claim, time: Time)
    | ProjectDenied(project: Id, until: Time)
    | Dispatched(attempt: AttemptId, recipient: Id, time: Time)
    | Called(attempt: AttemptId)
    | Administered(command: Command)
    | Guessed(guess: Id, recipient: Id, time: Time)

  /** `clock` is the last reading of the database clock; `reserved` are the reservations that a worker
      holds between its gate and its provider call. */
  datatype Db = Db(
    clock: Time,
    env: Environment,
    deliveries: map<Id, Delivery>,
    blocks: map<Id, Block>,
    inbox: seq<InboxRow>,
    correlations: map<Alias, AttemptId>,
    observations: seq<Observation>,
    reserved: set<AttemptId>,
    trail: seq<Fact>)

  /** A transaction that commits also when it rejects its request. */
  datatype Reply<+T> = Reply(db: Db, result: Result<T>)

  // ------------------------------------------------------------------- row access

  predicate Present(db: Db, id: AttemptId) {
    id.operation in db.deliveries && id.index < |db.deliveries[id.operation].attempts|
  }

  /** The attempt exists and its route step and intent do. */
  predicate Addressable(db: Db, id: AttemptId) {
    && Present(db, id)
    && var d := db.deliveries[id.operation];
       d.attempts[id.index].route.position < |d.saved.steps| && d.attempts[id.index].route.intent < |d.intents|
  }

  function AttemptAt(db: Db, id: AttemptId): Attempt
    requires Present(db, id)
  {
    db.deliveries[id.operation].attempts[id.index]
  }

  function StepAt(db: Db, id: AttemptId): RouteStep
    requires Addressable(db, id)
  {
    db.deliveries[id.operation].saved.steps[AttemptAt(db, id).route.position]
  }

  function IntentAt(db: Db, id: AttemptId): Intent
    requires Addressable(db, id)
  {
    db.deliveries[id.operation].intents[AttemptAt(db, id).route.intent]
  }

  function BlockOf(db: Db, project: Id): Block {
    if project in db.blocks then db.blocks[project] else Block(None, 0)
  }

  /** Every scheduled attempt is correlated under its own id before its job exists. */
  function RegisterScheduled(correlations: map<Alias, AttemptId>, operation: Id, known: nat, e: Delivery): map<Alias, AttemptId> {
    if known < |e.attempts| && e.attempts[|e.attempts|-1].route.position < |e.saved.steps| then
      var id := AttemptId(operation, |e.attempts| - 1);
      correlations[Alias(e.saved.steps[e.attempts[|e.attempts|-1].route.position].instance, AttemptReference(id)) := id]
    else correlations
  }

  function Store(db: Db, operation: Id, e: Delivery): Db
    requires operation in db.deliveries
  {
    db.(deliveries := db.deliveries[operation := e],
        correlations := RegisterScheduled(db.correlations, operation, |db.deliveries[operation].attempts|, e))
  }

  /** A reading of the database clock. */
  function Tick(db: Db, time: Time): Db { db.(clock := Max(db.clock, time)) }

  function ExpireOperation(db: Db, operation: Id, time: Time): Db {
    var ticked := Tick(db, time);
    if operation in db.deliveries then Store(ticked, operation, Expire(db.deliveries[operation], time)) else ticked
  }

  // ------------------------------------------------------------------ outcomes.ts

  function Restrict(env: Environment, instance: Id, retryAt: Option<Time>): Environment {
    if retryAt.None? then env
    else env.(restrictions := env.restrictions[instance :=
      if instance in env.restrictions then Max(env.restrictions[instance], retryAt.value) else retryAt.value])
  }

  /** `mergeLockedOutcome`. */
  function Merge(db: Db, id: AttemptId, outcome: Outcome, source: Source, time: Time): Db {
    if !Addressable(db, id) then db
    else
      var d := db.deliveries[id.operation];
      var env := Restrict(db.env, StepAt(db, id).instance, outcome.retryAt);
      var intent := IntentAt(db, id);
      var next := NextProvider(AvailableProviders(env, d.saved, time, Some(intent)), AttemptAt(db, id).route.position);
      Store(Tick(db, time), id.operation,
        MergeOutcome(d, id.index, outcome, IntentEligible(env.world, d.saved, intent), next, time)).(
          env := env,
          observations := db.observations + [Observation(id, outcome.state, source)])
  }

  function RecordOutcome(db: Db, id: AttemptId, outcome: Outcome, time: Time, mergeTime: Time): Db {
    Merge(ExpireOperation(db, id.operation, time), id, outcome, Response, mergeTime)
  }

  /** How a send can end without an acceptance. */
  datatype SendFailure =
    | Interrupted
    | UncertainReply(code: Option<Diagnostic>)
    | Rejection(invalidRecipient: bool, reason: Id, code: Option<Diagnostic>, retryAt: Option<Time>)

  function FailureOutcome(failure: SendFailure): Outcome {
    match failure
    case Interrupted => Outcome(Uncertain, Unknown, None, Some(InterruptedOrTimeout), None, false, false)
    case UncertainReply(code) => Outcome(Uncertain, Unknown, None, code, None, false, false)
    case Rejection(invalid, reason, code, retryAt) => Outcome(Failed, NotAccepted, Some(reason), code, retryAt, invalid, false)
  }

  /** The two local failures after a reservation: no provider, or too little time left. */
  function NotInvokedOutcome(tooLate: bool): Outcome {
    Outcome(Failed, NotAccepted, None, Some(if tooLate then WindowTooShort else ProviderUnavailable), None, false, true)
  }

  const AcceptedOutcome := Outcome(Accepted, WasAccepted, None, None, None, false, false)

  // ------------------------------------------------------------------ dispatch.ts

  function ViewGate(db: Db, id: AttemptId, time: Time, mergeTime: Time): GateView
    requires Addressable(db, id)
  {
    var d := db.deliveries[id.operation];
    var intent := IntentAt(db, id);
    GateView(
      BlockOf(db, d.saved.project),
      IntentEligible(db.env.world, d.saved, intent),
      RetryAt(db.env.ledger, CommonLimits(db.env, d.saved), time).None?,
      FindInstance(AvailableProviders(db.env, d.saved, time, Some(intent)), StepAt(db, id).instance),
      NextProvider(AvailableProviders(db.env, d.saved, mergeTime, Some(intent)), AttemptAt(db, id).route.position))
  }

  function EventOf(id: AttemptId): EventId { AttemptEvent(id.operation, id.index) }

  function GateVerdictAt(db: Db, id: AttemptId, jobRevision: nat, time: Time, mergeTime: Time): GateVerdict
    requires Addressable(db, id)
  {
    GateVerdictOf(db.deliveries[id.operation], id.index, jobRevision, time, ViewGate(db, id, time, mergeTime))
  }

  function GatedRows(db: Db, id: AttemptId, jobRevision: nat, time: Time, mergeTime: Time): Db
    requires Addressable(db, id)
  {
    Store(db, id.operation,
      Gate(db.deliveries[id.operation], id.index, jobRevision, time, mergeTime, ViewGate(db, id, time, mergeTime)))
  }

  /** What the gate writes to the other tables. */
  function GateLocked(db: Db, id: AttemptId, jobRevision: nat, time: Time, mergeTime: Time): Db
    requires Addressable(db, id)
  {
    var saved := db.deliveries[id.operation].saved;
    var gated := GatedRows(db, id, jobRevision, time, mergeTime);
    match GateVerdictAt(db, id, jobRevision, time, mergeTime)
    case Recover => gated.(observations := db.observations + [Observation(id, Uncertain, RecoveryCheck)])
    case FailLocally => Tick(gated, mergeTime).(observations := db.observations + [Observation(id, Failed, LocalCheck)])
    case Commit =>
      var counted := Count(db.env.ledger, SendLimits(db.env, saved, StepAt(db, id).instance), EventOf(id), time);
      gated.(
        env := db.env.(ledger := ExtendAdmission(counted, saved.recipient, EventOf(id), time)),
        reserved := db.reserved + {id},
        trail := db.trail + [Dispatched(id, saved.recipient, time)])
    case _ => gated
  }

  function DispatchGate(db: Db, id: AttemptId, jobRevision: nat, time: Time, mergeTime: Time): Db {
    var expired := ExpireOperation(db, id.operation, time);
    if Addressable(expired, id) then GateLocked(expired, id, jobRevision, time, mergeTime) else db
  }

  /** The worker that holds the reservation calls the provider; nobody else does. */
  function Invoke(db: Db, id: AttemptId): Db {
    if id in db.reserved then db.(reserved := db.reserved - {id}, trail := db.trail + [Called(id)]) else db
  }

  // ------------------------------------------------------------------ recovery.ts

  function RecoveryObservations(operation: Id, attempts: seq<Attempt>, time: Time): seq<Observation> {
    if attempts == [] then []
    else
      var n := |attempts| - 1;
      var rest := RecoveryObservations(operation, attempts[..n], time);
      if Overdue(attempts[n], time) then rest + [Observation(AttemptId(operation, n), Uncertain, RecoveryCheck)] else rest
  }

  function RecoverLocked(db: Db, operation: Id, time: Time): Db
    requires operation in db.deliveries
  {
    var d := db.deliveries[operation];
    Store(db, operation, RecoverOverdue(d, time)).(
      observations := db.observations + RecoveryObservations(operation, d.attempts, time))
  }

  function RecoverOperation(db: Db, operation: Id, time: Time): Db {
    var expired := ExpireOperation(db, operation, time);
    if operation in expired.deliveries then RecoverLocked(expired, operation, time) else expired
  }

  // ------------------------------------------------------------- authorization.ts

  function ClaimLocked(db: Db, id: AttemptId, jobRevision: nat, time: Time): Db
    requires Addressable(db, id)
  {
    var d := db.deliveries[id.operation];
    var eligible := IntentEligible(db.env.world, d.saved, IntentAt(db, id));
    var block := BlockOf(db, d.saved.project);
    var claimed := Store(Tick(db, time), id.operation, ClaimAuthorization(d, id.index, jobRevision, time, eligible, block));
    if ClaimVerdictOf(d, id.index, jobRevision, time, eligible, block).ClaimGranted? then
      claimed.(trail := db.trail + [Claimed(Claim(id, d.attempts[id.index].auth.generation + 1, block.generation), time)])
    else claimed
  }

  function ClaimAttempt(db: Db, id: AttemptId, jobRevision: nat, expiryTime: Time, time: Time): Db {
    var expired := ExpireOperation(db, id.operation, expiryTime);
    if Addressable(expired, id) then ClaimLocked(expired, id, jobRevision, time) else db
  }

  function FinishLocked(db: Db, claim: Claim, decision: AuthorityDecision, time: Time): Db
    requires Addressable(db, claim.attempt)
  {
    var id := claim.attempt;
    var d := db.deliveries[id.operation];
    var project := d.saved.project;
    var block := BlockOf(db, project);
    var eligible := IntentEligible(db.env.world, d.saved, IntentAt(db, id));
    var finished := Store(Tick(db, time), id.operation, FinishAuthorization(d, id.index, claim, decision, time, eligible, block));
    if decision.DenyProject? && Decides(d.attempts[id.index], claim.generation) then
      finished.(
        blocks := db.blocks[project := RecordDenial(block, time, decision.retryAt)],
        trail := db.trail + [ProjectDenied(project, Max(time + 1000, decision.retryAt))])
    else finished
  }

  function FinishAttempt(db: Db, claim: Claim, decision: AuthorityDecision, expiryTime: Time, time: Time): Db {
    var expired := ExpireOperation(db, claim.attempt.operation, expiryTime);
    if Addressable(expired, claim.attempt) then FinishLocked(expired, claim, decision, time) else db
  }

  // ----------------------------------------------------- actions.ts, lifecycle.ts

  datatype Action = ResendAction | NextAction | SelectAction(choice: Choice)

  function ReasonOf(action: Action): Reason {
    match action
    case ResendAction => Resend
    case NextAction => Next
    case SelectAction(_) => Select
  }

  function SelectTarget(d: Delivery, current: nat, action: Action, available: seq<Availability>): Result<Availability>
    requires current < |d.attempts|
  {
    match action
    case SelectAction(choice) => ResolveChoice(d.saved, Some(choice), available)
    case ResendAction =>
      var position := d.attempts[current].route.position;
      var target := if position < |d.saved.steps| then FindInstance(available, d.saved.steps[position].instance) else None;
      if target.Some? then Success(target.value) else Failure(DeliveryUnavailable)
    case NextAction =>
      var target := NextProvider(available, d.attempts[current].route.position);
      if target.Some? then Success(target.value) else Failure(DeliveryUnavailable)
  }

  function Instances(saved: Saved): seq<Id> {
    seq(|saved.steps|, k requires 0 <= k < |saved.steps| => saved.steps[k].instance)
  }

  /** Which target an explicit send may use, or why it is rejected; nothing is written yet. */
  function ChooseTarget(db: Db, d: Delivery, action: Action, time: Time): Result<Availability> {
    if !d.op.state.Active? then Failure(OperationUnavailable)
    else if d.op.current.None? || d.op.current.value >= |d.attempts| || d.op.recipientInvalid then Failure(DeliveryUnavailable)
    else
      var target := SelectTarget(d, d.op.current.value, action, AvailableProviders(db.env, d.saved, time, None));
      if target.Failure? then target
      else
        var admission := RetryAt(db.env.ledger, [AdmissionLimit(d.saved.recipient)], time);
        var blocked := UserSendBlock(d, time, admission, target.value.retryAt);
        if blocked.Some? then Failure(blocked.value) else target
  }

  /** `schedule` for an explicit command: access and authority are read again, and either can reject
      after the caller's earlier writes. */
  function ScheduleCommand(db: Db, operation: Id, position: nat, reason: Reason, principal: Id, time: Time): Reply<AttemptId>
    requires operation in db.deliveries
  {
    var d := db.deliveries[operation];
    var access := RequireAccess(db.env.world, d.saved.project, principal, true);
    if access.Failure? then Reply(db, Failure(access.error))
    else
      var authority := CaptureAuthority(db.env.world, d.saved.project, d.saved.policy, Instances(d.saved));
      if authority.Failure? then Reply(db, Failure(authority.error))
      else
        var intent := Intent(d.saved.project, access.value, db.env.world.projects[d.saved.project].sendEpoch,
                             reason, time, authority.value);
        Reply(Store(db, operation, ScheduleExplicit(d, position, reason, intent, time)),
                  Success(AttemptId(operation, |d.attempts|)))
  }

  /** `requestSend` on the operation after `expire`. */
  function RequestSendLocked(db: Db, operation: Id, principal: Id, action: Action, time: Time): Reply<AttemptId>
    requires operation in db.deliveries
  {
    var d := db.deliveries[operation];
    var target := ChooseTarget(db, d, action, time);
    if target.Failure? then Reply(db, Failure(target.error))
    else
      var scheduled := ScheduleCommand(Store(db, operation, Supersede(d, time)), operation,
                                       target.value.position, ReasonOf(action), principal, time);
      if scheduled.result.Failure? then scheduled
      else
        var id := scheduled.result.value;
        Reply(
          scheduled.db.(
            env := db.env.(ledger := Count(db.env.ledger, [AdmissionLimit(d.saved.recipient)], EventOf(id), time)),
            trail := db.trail + [Explicit(id, d.saved.recipient, time)]),
          Success(id))
  }

  /** The access checks that open every caller's transaction. */
  function CheckAccess(db: Db, operation: Id, principal: Id): Option<DomainError> {
    if operation !in db.deliveries then Some(OperationNotFound)
    else
      var access := RequireAccess(db.env.world, db.deliveries[operation].saved.project, principal, true);
      if access.Failure? then Some(access.error) else None
  }

  function RequestSend(db: Db, operation: Id, principal: Id, action: Action, time: Time): Reply<AttemptId> {
    var denied := CheckAccess(db, operation, principal);
    if denied.Some? then Reply(db, Failure(denied.value))
    else RequestSendLocked(ExpireOperation(db, operation, time), operation, principal, action, time)
  }

  datatype Code = Code(fingerprint: Id, length: nat)

  predicate CodeFits(saved: Saved, code: Code) {
    forall k | 0 <= k < |saved.steps| :: saved.steps[k].minCodeLength <= code.length <= saved.steps[k].maxCodeLength
  }

  function ActivateLocked(db: Db, operation: Id, code: Id, time: Time): Db
    requires operation in db.deliveries
  {
    Store(db, operation, Activate(db.deliveries[operation], code, time)).(trail := db.trail + [Activated(operation, time)])
  }

  function InitialSend(db: Db, operation: Id, principal: Id, time: Time): Reply<AttemptId>
    requires operation in db.deliveries
  {
    ScheduleCommand(db, operation, db.deliveries[operation].saved.initialPosition, Initial, principal, time)
  }

  /** `attachCode`: attaches once, activates, and schedules the initial attempt. */
  function AttachCode(db: Db, operation: Id, principal: Id, code: Code, time: Time): Reply<AttemptId>
    requires operation in db.deliveries
  {
    var expired := ExpireOperation(db, operation, time);
    var d := expired.deliveries[operation];
    if !Live(d.op) || d.secrets.None? then Reply(expired, Failure(OperationUnavailable))
    else if d.secrets.value.code.Some? then
      if d.secrets.value.code.value != code.fingerprint then Reply(expired, Failure(OperationStateConflict))
      else Reply(expired, Success(AttemptId(operation, 0)))
    else if !CodeFits(d.saved, code) then Reply(expired, Failure(InvalidRequest))
    else InitialSend(ActivateLocked(expired, operation, code.fingerprint, time), operation, principal, time)
  }

  function Submit(db: Db, operation: Id, principal: Id, code: Code, time: Time): Reply<AttemptId> {
    var denied := CheckAccess(db, operation, principal);
    if denied.Some? then Reply(db, Failure(denied.value))
    else AttachCode(db, operation, principal, code, time)
  }

  /** The policy is as it was when the route was prepared: same configuration, epoch and grant, enabled and valid. */
  predicate PolicyUnchanged(w: World, saved: Saved, prepared: CapturedAuthority) {
    && EnabledResource(w, PolicyKey(saved.policy))
    && w.resources[PolicyKey(saved.policy)].configurationRevision == saved.policyRevision
    && w.resources[PolicyKey(saved.policy)].epoch == prepared.policyEpoch
    && ActiveGrant(w, saved.project, PolicyKey(saved.policy)) == Some(prepared.policyGrant)
    && RevisionValid(w, PolicyKey(saved.policy), saved.policyRevision)
  }

  /** So is a step: same configuration, epochs and grant, enabled and valid. */
  predicate StepUnchanged(w: World, saved: Saved, prepared: CapturedAuthority, k: nat)
    requires k < |saved.steps|
  {
    var step := saved.steps[k];
    && k < |prepared.steps| && prepared.steps[k].instance == step.instance
    && InstanceAuthority(w, saved.project, step.instance, Some(prepared.steps[k].grant)) == Some(prepared.steps[k])
    && InstanceKey(step.instance) in w.resources
    && w.resources[InstanceKey(step.instance)].configurationRevision == step.instanceRevision
    && RevisionValid(w, InstanceKey(step.instance), step.instanceRevision)
    && w.resources[InstanceKey(step.instance)].settings == step.settings
  }

  predicate StepsUnchanged(w: World, saved: Saved, prepared: CapturedAuthority) {
    forall k | 0 <= k < |saved.steps| :: StepUnchanged(w, saved, prepared, k)
  }

  /** Whose operation it is: a backend that brings its own code, or a managed challenge. */
  datatype Owner = ForBackend | ForChallenge

  /** A prepared route, with the authority that it was prepared under and whether its policy serves backends. */
  datatype Admission = Admission(saved: Saved, prepared: CapturedAuthority, servesBackends: bool, owner: Owner, choice: Option<Choice>, maxLifetime: Time)

  function AdmissionLimits(env: Environment, recipient: Id): seq<Limit> {
    [RecipientLimit(recipient, Create, env.settings.recipientCreateLimit15m), AdmissionLimit(recipient)]
  }

  /** `admitOperation`; `operation` is the fresh id. */
  function Admit(db: Db, operation: Id, input: Admission, time: Time): Reply<Id> {
    var token := input.saved.recipient;
    if operation in db.deliveries || !SavedValid(input.saved) then Reply(db, Failure(InvalidRequest))
    else if input.saved.project !in db.env.world.projects then Reply(db, Failure(ProjectAccessDenied))
    else if !PolicyUnchanged(db.env.world, input.saved, input.prepared) then Reply(db, Failure(PolicyNotAllowed))
    else if !StepsUnchanged(db.env.world, input.saved, input.prepared) then Reply(db, Failure(DeliveryUnavailable))
    else if input.owner.ForBackend? && !input.servesBackends then Reply(db, Failure(PolicyNotAllowed))
    else if input.saved.expiresAt <= time || input.saved.expiresAt - time > input.maxLifetime then
      Reply(db, Failure(InvalidRequest))
    else if RetryAt(db.env.ledger, AdmissionLimits(db.env, token), time).Some? then Reply(db, Failure(RateLimited))
    else
      var target := ResolveChoice(input.saved, input.choice, AvailableProviders(db.env, input.saved, time, None));
      if target.Failure? then Reply(db, Failure(target.error))
      else
        var saved := input.saved.(
          initialPosition := target.value.position,
          createdAt := time,
          authorizationRequired := db.env.world.projects[input.saved.project].authorizationRequired);
        Reply(
          Tick(db, time).(
              deliveries := db.deliveries[operation := NewDelivery(saved)],
              env := db.env.(ledger := Count(db.env.ledger, AdmissionLimits(db.env, token), OperationEvent(operation), time)),
              trail := db.trail + [Admitted(operation, token, time)]),
          Success(operation))
  }

  /** `prepare`: admission after the access checks; a rejected admission rolls back. */
  function Prepare(db: Db, operation: Id, principal: Id, input: Admission, time: Time): Db {
    if RequireAccess(db.env.world, input.saved.project, principal, true).Failure? then db
    else Admit(db, operation, input, time).db
  }

  /** One-step creation: a failed attachment rolls the admission back too. */
  function CreateOperation(db: Db, operation: Id, principal: Id, input: Admission, code: Code, time: Time, attachTime: Time): Db {
    var admitted := Admit(db, operation, input, time);
    if RequireAccess(db.env.world, input.saved.project, principal, true).Failure? || admitted.result.Failure? then db
    else
      var attached := AttachCode(admitted.db, operation, principal, code, attachTime);
      if attached.result.Failure? then db else attached.db
  }

  function CloseLocked(db: Db, operation: Id, time: Time): Db
    requires operation in db.deliveries
  {
    Store(db, operation, Terminate(db.deliveries[operation], Closed, time))
  }

  function Close(db: Db, operation: Id, time: Time): Db {
    var expired := ExpireOperation(db, operation, time);
    if operation !in expired.deliveries || !Live(expired.deliveries[operation].op) then expired
    else CloseLocked(expired, operation, time)
  }

  // ---------------------------------------------------------------- callbacks.ts

  function StatusOf(status: CallbackStatus): EvidenceState {
    match status
    case ReportAccepted => Accepted
    case ReportDelivered => Delivered
    case ReportFailed => Failed
    case ReportCancelled => Failed
  }

  predicate RevisionMatches(revisions: Option<set<nat>>, revision: nat) {
    revisions.None? || revision in revisions.value
  }

  /** The attempt to which an event also gives its provider request id. */
  function EventTarget(db: Db, instance: Id, event: CallbackEvent): Option<AttemptId> {
    if event.request.None? || !event.reference.AttemptReference? || Alias(instance, event.reference) !in db.correlations then None
    else
      var id := db.correlations[Alias(instance, event.reference)];
      if Addressable(db, id) && RevisionMatches(event.revisions, StepAt(db, id).instanceRevision) then Some(id) else None
  }

  /** `registerCorrelation`: nothing when the alias already names another attempt. */
  function Register(db: Db, alias: Alias, id: AttemptId): Option<Db> {
    if alias in db.correlations then
      if db.correlations[alias] == id then Some(db) else None
    else Some(db.(correlations := db.correlations[alias := id]))
  }

  predicate Received(db: Db, instance: Id, key: Id) {
    exists k :: 0 <= k < |db.inbox| && db.inbox[k].instance == instance && db.inbox[k].key == key && !db.inbox[k].dropped
  }

  function InsertRow(db: Db, instance: Id, event: CallbackEvent): Db {
    if Received(db, instance, event.key) then db
    else db.(inbox := db.inbox + [InboxRow(instance, event.key, event.reference, StatusOf(event.status),
                                           event.diagnosticCode, event.revisions, false, false)])
  }

  function InsertEvent(db: Db, instance: Id, event: CallbackEvent): Option<Db> {
    var target := EventTarget(db, instance, event);
    var aliased := if target.None? then Some(db)
                   else Register(db, Alias(instance, ProviderReference(event.request.value)), target.value);
    if aliased.None? then None else Some(InsertRow(aliased.value, instance, event))
  }

  /** Inserts the batch in order; nothing when an alias conflicts, and the transaction rolls back. */
  function InsertEvents(db: Db, instance: Id, events: seq<CallbackEvent>): Option<Db> {
    if events == [] then Some(db)
    else
      var before := InsertEvents(db, instance, events[..|events|-1]);
      if before.None? then None else InsertEvent(before.value, instance, events[|events|-1])
  }

  /** The references that a batch touches: each event's own, and the alias it registers. */
  function EventReferences(db: Db, instance: Id, event: CallbackEvent): set<Reference> {
    {event.reference} +
    if EventTarget(db, instance, event).Some? then {ProviderReference(event.request.value)} else {}
  }

  function BatchReferences(db: Db, instance: Id, events: seq<CallbackEvent>): set<Reference> {
    if events == [] then {}
    else BatchReferences(db, instance, events[..|events|-1]) + EventReferences(db, instance, events[|events|-1])
  }

  predicate Applicable(row: InboxRow, instance: Id, reference: Reference, revision: nat) {
    row.instance == instance && row.reference == reference && !row.dropped && RevisionMatches(row.revisions, revision)
  }

  function CallbackOutcome(row: InboxRow): Outcome {
    Outcome(row.status, WasAccepted, None, row.diagnosticCode, None, false, false)
  }

  /** Applies one row and marks it processed. */
  function ApplyRow(db: Db, id: AttemptId, k: nat, time: Time): (r: Db)
    requires k < |db.inbox|
  {
    Merge(db, id, CallbackOutcome(db.inbox[k]), Callback(k), time).(
      inbox := db.inbox[k := db.inbox[k].(processed := true)])
  }

  /** Applies the first `count` rows that belong to the reference and are not processed yet. */
  function ApplyRows(db: Db, alias: Alias, id: AttemptId, revision: nat, time: Time, count: nat): (r: Db)
    requires count <= |db.inbox|
    ensures |r.inbox| == |db.inbox|
  {
    if count == 0 then db
    else
      var before := ApplyRows(db, alias, id, revision, time, count - 1);
      var row := before.inbox[count - 1];
      if Applicable(row, alias.instance, alias.reference, revision) && !row.processed
      then ApplyRow(before, id, count - 1, time) else before
  }

  function Reconcile(db: Db, alias: Alias, time: Time, mergeTime: Time): Db {
    if alias !in db.correlations then db
    else
      var id := db.correlations[alias];
      var expired := ExpireOperation(db, id.operation, time);
      if !Addressable(expired, id) then db
      else ApplyRows(expired, alias, id, StepAt(expired, id).instanceRevision, mergeTime, |expired.inbox|)
  }

  function ReconcileAll(db: Db, instance: Id, references: seq<Reference>, time: Time, mergeTime: Time): Db {
    if references == [] then db
    else Reconcile(ReconcileAll(db, instance, references[..|references|-1], time, mergeTime),
                   Alias(instance, references[|references|-1]), time, mergeTime)
  }

  predicate Enumerates(order: seq<Reference>, references: set<Reference>) {
    (set r | r in order) == references
  }

  /** `ingestEvents`: `order` is any enumeration of the touched references. */
  function Ingest(db: Db, instance: Id, events: seq<CallbackEvent>, order: seq<Reference>, time: Time, mergeTime: Time): Db {
    var inserted := InsertEvents(db, instance, events);
    if inserted.None? then db else ReconcileAll(inserted.value, instance, order, time, mergeTime)
  }

  /** The acceptance and the request's alias, reconciled; nothing when the alias names another attempt. */
  function Acknowledge(db: Db, id: AttemptId, request: Option<Id>, time: Time, mergeTime: Time): Option<Db>
    requires Addressable(db, id)
  {
    var accepted := Merge(db, id, AcceptedOutcome, Response, mergeTime);
    if request.None? then Some(accepted)
    else
      var alias := Alias(StepAt(db, id).instance, ProviderReference(request.value));
      var aliased := Register(accepted, alias, id);
      if aliased.None? then None else Some(Reconcile(aliased.value, alias, time, mergeTime))
  }

  /** `recordAccepted`: the acceptance, the request's alias, and an event carried by the response. */
  function RecordAccepted(db: Db, id: AttemptId, request: Option<Id>, events: seq<CallbackEvent>, order: seq<Reference>,
                          time: Time, mergeTime: Time): Db {
    var expired := ExpireOperation(db, id.operation, time);
    if !Addressable(expired, id) then db
    else
      var acknowledged := Acknowledge(expired, id, request, time, mergeTime);
      if acknowledged.None? || InsertEvents(acknowledged.value, StepAt(expired, id).instance, events).None? then db
      else Ingest(acknowledged.value, StepAt(expired, id).instance, events, order, time, mergeTime)
  }

  /** What becomes of a committed dispatch in its worker: no provider could be built, too little time was left, or the
      one call ended. */
  datatype Call =
    | NotBuilt
    | TooLate
    | Fails(failure: SendFailure)
    | Accepts(request: Option<Id>, events: seq<CallbackEvent>)

  /** How a provider answers when it is called. */
  datatype Answer = Declined(failure: SendFailure) | Taken(request: Option<Id>, events: seq<CallbackEvent>)

  /** The time the gate left for delivery, and what of it is gone when the provider is ready. */
  predicate InTime(db: Db, id: AttemptId, gateTime: Time, elapsed: Time)
    requires Addressable(db, id)
  {
    var step := StepAt(db, id);
    var remaining := Max(0, db.deliveries[id.operation].saved.expiresAt - gateTime - step.sendTimeout) - elapsed;
    var approval := AttemptAt(db, id).auth.expiresAt;
    remaining > step.minDeliveryWindow && (approval.Some? ==> elapsed < approval.value - gateTime)
  }

  function CallFor(db: Db, id: AttemptId, gateTime: Time, built: bool, elapsed: Time, answer: Answer): Call
    requires Addressable(db, id)
  {
    if !built then NotBuilt
    else if !InTime(db, id, gateTime, elapsed) then TooLate
    else match answer
         case Declined(failure) => Fails(failure)
         case Taken(request, events) => Accepts(request, events)
  }

  /** The claim that a claiming transaction gives out, if any. */
  function GivenClaim(db: Db, id: AttemptId, jobRevision: nat, expiryTime: Time, time: Time): Option<Claim> {
    var expired := ExpireOperation(db, id.operation, expiryTime);
    if !Addressable(expired, id) then None
    else
      var d := expired.deliveries[id.operation];
      var block := BlockOf(expired, d.saved.project);
      if ClaimVerdictOf(d, id.index, jobRevision, time, IntentEligible(expired.env.world, d.saved, IntentAt(expired, id)), block).ClaimGranted?
      then Some(Claim(id, d.attempts[id.index].auth.generation + 1, block.generation)) else None
  }

  /** The clock readings of one worker's job, in order. */
  datatype Readings = Readings(
    claimExpiry: Time, claim: Time, finishExpiry: Time, finish: Time, gate: Time, gateMerge: Time, report: Time, reportMerge: Time)

  predicate InOrder(r: Readings) {
    r.claimExpiry <= r.claim <= r.finishExpiry <= r.finish <= r.gate <= r.gateMerge <= r.report <= r.reportMerge
  }

  /** `authorizeAttempt`: what was claimed is decided; timeouts and malformed answers are `NoDecision`. */
  function Authorize(db: Db, id: AttemptId, jobRevision: nat, decision: AuthorityDecision, r: Readings): Db {
    var claim := GivenClaim(db, id, jobRevision, r.claimExpiry, r.claim);
    var claimed := ClaimAttempt(db, id, jobRevision, r.claimExpiry, r.claim);
    if claim.None? then claimed else FinishAttempt(claimed, claim.value, decision, r.finishExpiry, r.finish)
  }

  /** The call, if it is made, and its report. */
  function Reported(db: Db, id: AttemptId, call: Call, order: seq<Reference>, time: Time, mergeTime: Time): Db {
    match call
    case NotBuilt => RecordOutcome(db, id, NotInvokedOutcome(false), time, mergeTime)
    case TooLate => RecordOutcome(db, id, NotInvokedOutcome(true), time, mergeTime)
    case Fails(failure) => RecordOutcome(Invoke(db, id), id, FailureOutcome(failure), time, mergeTime)
    case Accepts(request, events) => RecordAccepted(Invoke(db, id), id, request, events, order, time, mergeTime)
  }

  // ------------------------------------ administration (runtime, projects) and maintenance.ts

  function AdministerWorld(db: Db, command: Command): Db {
    db.(env := db.env.(world := Administer(db.env.world, command)), trail := db.trail + [Administered(command)])
  }

  function Clean(db: Db, doomed: set<EventKey>, time: Time): Db {
    Tick(db, time).(env := db.env.(ledger := Cleanup(db.env.ledger, doomed)))
  }

  /** Inbox retention spares every row whose reference is an alias. */
  predicate Droppable(db: Db, row: InboxRow) {
    Alias(row.instance, row.reference) !in db.correlations
  }

  function ForgetCallbacks(db: Db, doomed: set<nat>, time: Time): Db {
    Tick(db, time).(inbox := seq(|db.inbox|, k requires 0 <= k < |db.inbox| =>
      if k in doomed && Droppable(db, db.inbox[k]) then db.inbox[k].(dropped := true) else db.inbox[k]))
  }

  /** What a wrong guess of a managed verification does to the ledger that it shares with the engine: it is counted when
      the recipient's guess limit is open. */
  function CountGuess(db: Db, recipient: Id, guess: Id, time: Time): Db {
    if RetryAt(db.env.ledger, GuessLimits(db.env.settings, recipient), time).Some? then Tick(db, time)
    else Tick(db, time).(
      env := db.env.(ledger := ChargeGuess(db.env.ledger, db.env.settings, recipient, guess, time)),
      trail := db.trail + [Guessed(guess, recipient, time)])
  }

  // -------------------------------------------------------------------- the steps

  datatype Step =
    | AdministerStep(command: Command)
    | PrepareStep(operation: Id, principal: Id, input: Admission, time: Time)
    | CreateStep(operation: Id, principal: Id, input: Admission, code: Code, time: Time, later: Time)
    | SubmitStep(operation: Id, principal: Id, code: Code, time: Time)
    | RequestStep(operation: Id, principal: Id, action: Action, time: Time)
    | CloseStep(operation: Id, time: Time)
    | ExpireStep(operation: Id, time: Time)
    | ClaimStep(attempt: AttemptId, jobRevision: nat, time: Time, later: Time)
    | FinishStep(claim: Claim, decision: AuthorityDecision, time: Time, later: Time)
    | GateStep(attempt: AttemptId, jobRevision: nat, time: Time, later: Time)
    | InvokeStep(attempt: AttemptId)
    | OutcomeStep(attempt: AttemptId, failure: SendFailure, time: Time, later: Time)
    | NotInvokedStep(attempt: AttemptId, tooLate: bool, time: Time, later: Time)
    | AcceptedStep(attempt: AttemptId, request: Option<Id>, events: seq<CallbackEvent>, order: seq<Reference>, time: Time, later: Time)
    | IngestStep(instance: Id, events: seq<CallbackEvent>, order: seq<Reference>, time: Time, later: Time)
    | RecoverStep(operation: Id, time: Time)
    | CleanStep(doomed: set<EventKey>, time: Time)
    | GuessStep(recipient: Id, guess: Id, time: Time)
    | ForgetStep(places: set<nat>, time: Time)

  function Transact(db: Db, step: Step): Db {
    match step
    case AdministerStep(command) => AdministerWorld(db, command)
    case PrepareStep(operation, principal, input, time) => Prepare(db, operation, principal, input, time)
    case CreateStep(operation, principal, input, code, time, later) =>
      CreateOperation(db, operation, principal, input, code, time, later)
    case SubmitStep(operation, principal, code, time) => Submit(db, operation, principal, code, time).db
    case RequestStep(operation, principal, action, time) => RequestSend(db, operation, principal, action, time).db
    case CloseStep(operation, time) => Close(db, operation, time)
    case ExpireStep(operation, time) => ExpireOperation(db, operation, time)
    case ClaimStep(attempt, jobRevision, time, later) => ClaimAttempt(db, attempt, jobRevision, time, later)
    case FinishStep(claim, decision, time, later) => FinishAttempt(db, claim, decision, time, later)
    case GateStep(attempt, jobRevision, time, later) => DispatchGate(db, attempt, jobRevision, time, later)
    case InvokeStep(attempt) => Invoke(db, attempt)
    case OutcomeStep(attempt, failure, time, later) => RecordOutcome(db, attempt, FailureOutcome(failure), time, later)
    case NotInvokedStep(attempt, tooLate, time, later) => RecordOutcome(db, attempt, NotInvokedOutcome(tooLate), time, later)
    case AcceptedStep(attempt, request, events, order, time, later) =>
      RecordAccepted(db, attempt, request, events, order, time, later)
    case IngestStep(instance, events, order, time, later) => Ingest(db, instance, events, order, time, later)
    case RecoverStep(operation, time) => RecoverOperation(db, operation, time)
    case CleanStep(doomed, time) => Clean(db, doomed, time)
    case GuessStep(recipient, guess, time) => CountGuess(db, recipient, guess, time)
    case ForgetStep(doomed, time) => ForgetCallbacks(db, doomed, time)
  }

  /** The transaction's last clock reading; administration and provider calls read no clock here. */
  function LastReading(db: Db, step: Step): Time {
    match step
    case AdministerStep(_) => db.clock
    case InvokeStep(_) => db.clock
    case PrepareStep(_, _, _, time) => time
    case CreateStep(_, _, _, _, _, later) => later
    case SubmitStep(_, _, _, time) => time
    case RequestStep(_, _, _, time) => time
    case CloseStep(_, time) => time
    case ExpireStep(_, time) => time
    case ClaimStep(_, _, _, later) => later
    case FinishStep(_, _, _, later) => later
    case GateStep(_, _, _, later) => later
    case OutcomeStep(_, _, _, later) => later
    case NotInvokedStep(_, _, _, later) => later
    case AcceptedStep(_, _, _, _, _, later) => later
    case IngestStep(_, _, _, _, later) => later
    case RecoverStep(_, time) => time
    case CleanStep(_, time) => time
    case GuessStep(_, _, time) => time
    case ForgetStep(_, time) => time
  }

  /** The transaction's first clock reading. */
  function FirstReading(db: Db, step: Step): Time {
    match step
    case AdministerStep(_) => db.clock
    case InvokeStep(_) => db.clock
    case _ => step.time
  }
}
