/** The rows of one delivery operation: its saved route, its mutable routing columns,
    its send intents and its attempts. */
module Records {
  import opened Prelude

  datatype AttemptState =
    | Pending | Dispatching | Accepted | Delivered | Failed | Uncertain | Suppressed

  datatype Acceptance = WasAccepted | NotAccepted | Unknown

  datatype AuthorizationState = NotRequired | Awaiting | Approved | Denied | Lapsed

  datatype Invocation = NotStarted | Committed | NotInvoked

  datatype Reason = Initial | Fallback | Resend | Next | Select

  datatype OperationState = Prepared | Active | Closed | Expired

  /** Diagnostic codes that the engine itself writes, or an allowlisted provider code. */
  datatype Diagnostic =
    | WorkerRecovery | ApprovalUnused | BudgetExhausted | ProviderUnavailable
    | AuthorizationPending | AuthorizationDenied | AuthorizationExpired
    | WindowTooShort | InterruptedOrTimeout | ProviderCode(code: Id)

  /** The columns that provider evidence can change. */
  datatype Evidence = Evidence(
    state: AttemptState,
    acceptance: Option<Acceptance>,
    failureCategory: Option<Id>,
    diagnosticCode: Option<Diagnostic>)

  /** The columns that the authorization protocol owns. */
  datatype Authorization = Authorization(
    state: AuthorizationState,
    generation: nat,
    projectGeneration: nat,
    retryAt: Option<Time>,
    leaseUntil: Option<Time>,
    approvedAt: Option<Time>,
    expiresAt: Option<Time>)

  /** The immutable identity of an attempt; the attempt's id is its operation and its index. */
  datatype AttemptRoute = AttemptRoute(
    intent: nat,
    position: nat,
    revision: nat,
    reason: Reason,
    createdAt: Time)

  datatype Attempt = Attempt(
    route: AttemptRoute,
    evidence: Evidence,
    auth: Authorization,
    invocation: Invocation,
    committedAt: Option<Time>,
    recoveryAt: Option<Time>)

  /** One saved route step. */
  datatype RouteStep = RouteStep(
    instance: Id,
    channel: Id,
    instanceRevision: nat,
    settings: Id,
    sendTimeout: Time,
    minDeliveryWindow: Time,
    manualSelectionAllowed: bool,
    minCodeLength: nat,
    maxCodeLength: nat)

  /** The columns of an operation that never change after admission. */
  datatype Saved = Saved(
    project: Id,
    recipient: Id,
    policy: Id,
    policyRevision: nat,
    steps: seq<RouteStep>,
    authorizationRequired: bool,
    maxSends: nat,
    resendCooldown: Time,
    confirmedFailureFallback: bool,
    manualSelectionEnabled: bool,
    createdAt: Time,
    expiresAt: Time,
    initialPosition: nat)

  /** The columns of an operation that transactions update. */
  datatype Routing = Routing(
    state: OperationState,
    terminalAt: Option<Time>,
    revision: nat,
    automaticStopped: bool,
    recipientInvalid: bool,
    current: Option<nat>,
    nextUserSendAt: Time,
    processingStarted: bool)

  datatype StepAuthority = StepAuthority(instance: Id, accountEpoch: nat, instanceEpoch: nat, grant: nat)

  datatype CapturedAuthority = CapturedAuthority(
    policyGrant: nat,
    policyEpoch: nat,
    steps: seq<StepAuthority>)

  /** Permission captured once by an explicit command; automatic fallbacks reuse it. */
  datatype Intent = Intent(
    project: Id,
    principalGrant: nat,
    sendEpoch: nat,
    action: Reason,
    createdAt: Time,
    authority: CapturedAuthority)

  /** The recoverable secrets row; `code` is absent until a code is attached. */
  datatype Secrets = Secrets(code: Option<Id>)

  datatype Delivery = Delivery(
    saved: Saved,
    op: Routing,
    intents: seq<Intent>,
    attempts: seq<Attempt>,
    secrets: Option<Secrets>)

  datatype AttemptId = AttemptId(operation: Id, index: nat)

  /** What one invocation, callback or local check reports about one attempt. */
  datatype Outcome = Outcome(
    state: EvidenceState,
    acceptance: Acceptance,
    failureCategory: Option<Id>,
    diagnosticCode: Option<Diagnostic>,
    retryAt: Option<Time>,
    stop: bool,
    notInvoked: bool)

  /** The attempt states that provider evidence can report. */
  type EvidenceState = s: AttemptState | Evidential(s) witness Accepted

  predicate Live(op: Routing) { op.state.Prepared? || op.state.Active? }

  /** Provider evidence never reports a local state. */
  predicate Evidential(s: AttemptState) {
    s.Accepted? || s.Delivered? || s.Failed? || s.Uncertain?
  }

  /** `dispatch_deadline`: the last instant at which the step's request and window still fit. */
  function DispatchDeadline(d: Delivery, i: nat): Time
    requires i < |d.attempts| && d.attempts[i].route.position < |d.saved.steps|
  {
    var step := d.saved.steps[d.attempts[i].route.position];
    d.saved.expiresAt - (step.sendTimeout + step.minDeliveryWindow)
  }

  /** The attempts that hold a durable dispatch commitment. */
  function CommittedAttempts(attempts: seq<Attempt>): set<nat> {
    set i: nat | i < |attempts| && attempts[i].committedAt.Some?
  }

  /** `send_count`. */
  function SendCount(d: Delivery): nat { |CommittedAttempts(d.attempts)| }
}
