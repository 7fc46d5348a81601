/** The statements that transactions run against the rows of one locked operation.
    Answers that come from other tables (authority, quotas, project blocks) are arguments. */
module Routing {
  import opened Prelude
  import opened Records
  import opened Decision

  /** A provider that may be used now (`retryAt` absent) or not before `retryAt`. */
  datatype Availability = Availability(position: nat, instance: Id, retryAt: Option<Time>)

  // ---------------------------------------------------------------- attempts.ts

  function SuppressAttempt(a: Attempt): Attempt {
    a.(invocation := NotInvoked, evidence := a.evidence.(state := Suppressed))
  }

  predicate Suppressible(a: Attempt, onlyFallback: bool) {
    a.evidence.state.Pending? && (onlyFallback ==> a.route.reason.Fallback?)
  }

  function SuppressPending(d: Delivery, onlyFallback: bool): Delivery {
    d.(attempts := seq(|d.attempts|, i requires 0 <= i < |d.attempts| =>
      if Suppressible(d.attempts[i], onlyFallback) then SuppressAttempt(d.attempts[i]) else d.attempts[i]))
  }

  function WithAttempt(d: Delivery, i: nat, a: Attempt): Delivery
    requires i < |d.attempts|
  {
    d.(attempts := d.attempts[i := a])
  }

  // ------------------------------------------------------------------- store.ts

  function EraseSecrets(d: Delivery): Delivery {
    SuppressPending(d.(secrets := None), false)
  }

  function Terminate(d: Delivery, state: OperationState, time: Time): Delivery {
    if Live(d.op) then
      EraseSecrets(d.(op := d.op.(
        state := state, terminalAt := Some(time), revision := d.op.revision + 1, automaticStopped := true)))
    else EraseSecrets(d)
  }

  function Expire(d: Delivery, time: Time): Delivery {
    if Live(d.op) && time >= d.saved.expiresAt then Terminate(d, Expired, time) else d
  }

  // ---------------------------------------------------------------- schedule.ts

  function NewAttempt(d: Delivery, position: nat, reason: Reason, intent: nat, time: Time): Attempt {
    Attempt(
      AttemptRoute(intent, position, d.op.revision, reason, time),
      Evidence(Pending, None, None, None),
      Authorization(if d.saved.authorizationRequired then Awaiting else NotRequired, 0, 0, None, None, None, None),
      NotStarted, None, None)
  }

  function Schedule(d: Delivery, position: nat, reason: Reason, intent: nat, time: Time): Delivery {
    d.(attempts := d.attempts + [NewAttempt(d, position, reason, intent, time)],
       op := d.op.(current := Some(|d.attempts|)))
  }

  // ---------------------------------------------------------------- outcomes.ts

  function StopAutomatic(d: Delivery, stop: bool, recipientInvalid: bool): Delivery {
    if stop then d.(op := d.op.(automaticStopped := true, recipientInvalid := recipientInvalid)) else d
  }

  function ApplySuppression(d: Delivery, scope: SuppressScope): Delivery {
    match scope
    case SuppressNone => d
    case SuppressFallback => SuppressPending(d, true)
    case SuppressAll => SuppressPending(d, false)
  }

  /** The evidence columns, the routing flags and the suppression, before any advance. */
  function RecordEvidence(d: Delivery, i: nat, outcome: Outcome): Delivery
    requires i < |d.attempts|
  {
    var decision := DecideOutcome(d, i, outcome);
    var a := d.attempts[i];
    var invocation := if outcome.notInvoked then NotInvoked else a.invocation;
    if !decision.applies then WithAttempt(d, i, a.(invocation := invocation))
    else
      var recorded := WithAttempt(d, i, a.(invocation := invocation, evidence := decision.evidence));
      ApplySuppression(StopAutomatic(recorded, decision.stopAutomatic, decision.recipientInvalid), decision.suppress)
  }

  /** Whether a confirmed failure may create a fallback at `next`. */
  predicate FallsBack(d: Delivery, i: nat, outcome: Outcome, eligible: bool, next: Option<Availability>)
    requires i < |d.attempts|
  {
    && DecideOutcome(d, i, outcome).advance
    && d.saved.confirmedFailureFallback
    && eligible
    && next.Some? && next.value.retryAt.None?
    && SendCount(d) < d.saved.maxSends
  }

  function MergeOutcome(d: Delivery, i: nat, outcome: Outcome, eligible: bool,
                        next: Option<Availability>, time: Time): Delivery
    requires i < |d.attempts|
  {
    var recorded := RecordEvidence(d, i, outcome);
    if FallsBack(d, i, outcome, eligible, next) then
      Schedule(recorded, next.value.position, Fallback, d.attempts[i].route.intent, time)
    else recorded
  }

  // ---------------------------------------------------------------- recovery.ts

  predicate Overdue(a: Attempt, time: Time) {
    a.evidence.state.Dispatching? && a.recoveryAt.Some? && a.recoveryAt.value <= time
  }

  function RecoverAttempt(a: Attempt): Attempt {
    a.(evidence := a.evidence.(state := Uncertain, acceptance := Some(Unknown), diagnosticCode := Some(WorkerRecovery)))
  }

  function RecoverOverdue(d: Delivery, time: Time): Delivery {
    d.(attempts := seq(|d.attempts|, i requires 0 <= i < |d.attempts| =>
      if Overdue(d.attempts[i], time) then RecoverAttempt(d.attempts[i]) else d.attempts[i]))
  }

  // ---------------------------------------------------------------- dispatch.ts

  predicate Stale(d: Delivery, i: nat, jobRevision: nat)
    requires i < |d.attempts|
  {
    var a := d.attempts[i];
    || !d.op.state.Active?
    || d.op.revision != a.route.revision
    || jobRevision != a.route.revision
    || (a.route.reason.Fallback? && d.op.automaticStopped)
  }

  /** The project's send block: `generation` is 0 while no denial has been recorded. */
  datatype Block = Block(until: Option<Time>, generation: nat)

  predicate InsideBlock(block: Block, time: Time) {
    block.until.Some? && block.until.value > time
  }

  predicate UsableApproval(auth: Authorization, block: Block, time: Time) {
    && auth.state.Approved?
    && auth.expiresAt.Some? && auth.expiresAt.value > time
    && auth.projectGeneration == block.generation
  }

  /** Answers that the gate reads from the other tables under its locks. */
  datatype GateView = GateView(
    block: Block,
    eligible: bool,
    sharedBudget: bool,
    target: Option<Availability>,
    next: Option<Availability>)

  datatype GateVerdict = Ignore | Recover | Drop | Hold | DropUnused | DropLimited | FailLocally | Commit

  function GateVerdictOf(d: Delivery, i: nat, jobRevision: nat, time: Time, view: GateView): GateVerdict
    requires i < |d.attempts|
  {
    var a := d.attempts[i];
    if a.evidence.state.Dispatching? then
      if a.recoveryAt.None? || a.recoveryAt.value > time then Ignore else Recover
    else if !a.evidence.state.Pending? then Ignore
    else if Stale(d, i, jobRevision) || !view.eligible then Drop
    else if InsideBlock(view.block, time) then Hold
    else if d.saved.authorizationRequired && a.auth.state.Awaiting? then Hold
    else if d.saved.authorizationRequired && !UsableApproval(a.auth, view.block, time) then DropUnused
    else if !view.sharedBudget || SendCount(d) >= d.saved.maxSends then DropLimited
    else if view.target.None? || view.target.value.retryAt.Some? then FailLocally
    else Commit
  }

  function LocalFailure(target: Option<Availability>): Outcome {
    Outcome(Failed, NotAccepted, None,
      Some(if target.None? then ProviderUnavailable else BudgetExhausted), None, false, true)
  }

  function DroppedAttempt(a: Attempt, code: Option<Diagnostic>): Attempt {
    var s := SuppressAttempt(a);
    if code.None? then s else s.(evidence := s.evidence.(diagnosticCode := code))
  }

  function CommitAttempt(a: Attempt, step: RouteStep, time: Time): Attempt {
    a.(invocation := Committed, committedAt := Some(time), recoveryAt := Some(time + step.sendTimeout + 30000),
       evidence := a.evidence.(state := Dispatching, acceptance := Some(Unknown)))
  }

  function CommitDispatch(d: Delivery, i: nat, time: Time): Delivery
    requires i < |d.attempts| && d.attempts[i].route.position < |d.saved.steps|
  {
    var committed := WithAttempt(d, i, CommitAttempt(d.attempts[i], d.saved.steps[d.attempts[i].route.position], time));
    committed.(op := committed.op.(
      nextUserSendAt := Max(committed.op.nextUserSendAt, time + d.saved.resendCooldown)))
  }

  function StartProcessing(d: Delivery): Delivery {
    d.(op := d.op.(processingStarted := true))
  }

  /** `d` is the operation after `expire`; the later clock reading `mergeTime` serves the local failure. */
  function Gate(d: Delivery, i: nat, jobRevision: nat, time: Time, mergeTime: Time, view: GateView): Delivery
    requires i < |d.attempts| && d.attempts[i].route.position < |d.saved.steps|
  {
    var a := d.attempts[i];
    match GateVerdictOf(d, i, jobRevision, time, view)
    case Ignore => d
    case Hold => d
    case Recover => WithAttempt(d, i, RecoverAttempt(a))
    case Drop => WithAttempt(d, i, DroppedAttempt(a, None))
    case DropUnused => WithAttempt(d, i, DroppedAttempt(a, Some(ApprovalUnused)))
    case DropLimited => WithAttempt(StartProcessing(d), i, DroppedAttempt(a, Some(BudgetExhausted)))
    case FailLocally =>
      MergeOutcome(StartProcessing(d), i, LocalFailure(view.target), view.eligible, view.next, mergeTime)
    case Commit => CommitDispatch(StartProcessing(d), i, time)
  }

  // ----------------------------------------------------------- authorization.ts

  datatype Claim = Claim(attempt: AttemptId, generation: nat, projectGeneration: nat)

  datatype ClaimVerdict = ClaimNothing | ClaimLapsed | ClaimGranted

  function ClaimVerdictOf(d: Delivery, i: nat, jobRevision: nat, time: Time, eligible: bool, block: Block): ClaimVerdict
    requires i < |d.attempts| && d.attempts[i].route.position < |d.saved.steps|
  {
    var a := d.attempts[i];
    if !a.evidence.state.Pending? || !a.auth.state.Awaiting? then ClaimNothing
    else if !eligible || !d.op.state.Active? || d.op.revision != jobRevision || time >= DispatchDeadline(d, i) then ClaimLapsed
    else if InsideBlock(block, time) then ClaimNothing
    else if (a.auth.leaseUntil.Some? && a.auth.leaseUntil.value > time) ||
            (a.auth.retryAt.Some? && a.auth.retryAt.value > time) then ClaimNothing
    else ClaimGranted
  }

  function LapsedAttempt(a: Attempt): Attempt {
    DroppedAttempt(a, Some(AuthorizationExpired)).(auth := a.auth.(state := Lapsed, leaseUntil := None))
  }

  function ClaimedAttempt(a: Attempt, time: Time, block: Block): Attempt {
    a.(auth := a.auth.(
      generation := a.auth.generation + 1,
      leaseUntil := Some(time + 15000),
      projectGeneration := block.generation))
  }

  function ClaimAuthorization(d: Delivery, i: nat, jobRevision: nat, time: Time, eligible: bool, block: Block): Delivery
    requires i < |d.attempts| && d.attempts[i].route.position < |d.saved.steps|
  {
    match ClaimVerdictOf(d, i, jobRevision, time, eligible, block)
    case ClaimNothing => d
    case ClaimLapsed => WithAttempt(d, i, LapsedAttempt(d.attempts[i]))
    case ClaimGranted => WithAttempt(d, i, ClaimedAttempt(d.attempts[i], time, block))
  }

  /** A validated answer of the send authority, or `NoDecision` for timeouts, malformed and foreign answers. */
  datatype AuthorityDecision =
    | NoDecision
    | Wait(retryAt: Time)
    | DenyRoute
    | DenyProject(retryAt: Time)
    | Approve(validUntil: Time)

  /** Only the latest claim generation may decide, and only while the attempt awaits a decision. */
  predicate Decides(a: Attempt, generation: nat) {
    a.auth.generation == generation && (a.auth.state.Awaiting? || a.auth.state.Lapsed?)
  }

  function WaitingAttempt(a: Attempt, time: Time, retryAt: Time): Attempt {
    if a.auth.state.Awaiting? then
      a.(auth := a.auth.(leaseUntil := None, retryAt := Some(Max(time + 5000, retryAt))),
         evidence := a.evidence.(diagnosticCode := Some(AuthorizationPending)))
    else a
  }

  function DeniedAttempt(a: Attempt): Attempt {
    DroppedAttempt(a, Some(AuthorizationDenied)).(auth := a.auth.(state := Denied, leaseUntil := None))
  }

  predicate UsableDecision(d: Delivery, i: nat, claim: Claim, validUntil: Time, time: Time, eligible: bool, block: Block)
    requires i < |d.attempts|
  {
    && eligible
    && d.attempts[i].evidence.state.Pending?
    && d.op.state.Active?
    && d.op.revision == d.attempts[i].route.revision
    && validUntil > time
    && block.generation == claim.projectGeneration
  }

  function ApprovedAttempt(a: Attempt, time: Time, validUntil: Time, usable: bool): Attempt {
    a.(auth := a.auth.(state := Approved, approvedAt := Some(time), expiresAt := Some(validUntil), leaseUntil := None),
       invocation := if usable then NotStarted else NotInvoked,
       evidence := a.evidence.(
         state := if usable then Pending else Suppressed,
         diagnosticCode := if usable then None else Some(ApprovalUnused)))
  }

  function FinishAuthorization(d: Delivery, i: nat, claim: Claim, decision: AuthorityDecision,
                               time: Time, eligible: bool, block: Block): Delivery
    requires i < |d.attempts| && d.attempts[i].route.position < |d.saved.steps|
  {
    var a := d.attempts[i];
    if !Decides(a, claim.generation) then d
    else
      match decision
      case NoDecision => WithAttempt(d, i, WaitingAttempt(a, time, 0))
      case Wait(retryAt) => WithAttempt(d, i, WaitingAttempt(a, time, retryAt))
      case DenyRoute => WithAttempt(d, i, DeniedAttempt(a))
      case DenyProject(_) => WithAttempt(d, i, DeniedAttempt(a))
      case Approve(until) =>
        var validUntil := Min(until, DispatchDeadline(d, i));
        WithAttempt(d, i, ApprovedAttempt(a, time, validUntil,
          UsableDecision(d, i, claim, validUntil, time, eligible, block)))
  }

  /** The block row after a project denial. */
  function RecordDenial(block: Block, time: Time, retryAt: Time): Block {
    Block(Some(Latest(block.until, Max(time + 1000, retryAt))), block.generation + 1)
  }

  // --------------------------------------------------- actions.ts, lifecycle.ts

  /** The writes of an accepted explicit send, in order. */
  function Supersede(d: Delivery, time: Time): Delivery {
    var quiet := SuppressPending(d, false);
    quiet.(op := quiet.op.(
      revision := quiet.op.revision + 1,
      automaticStopped := false,
      nextUserSendAt := time + d.saved.resendCooldown))
  }

  function ScheduleExplicit(d: Delivery, position: nat, reason: Reason, intent: Intent, time: Time): Delivery {
    Schedule(d.(intents := d.intents + [intent]), position, reason, |d.intents|, time)
  }

  function SendExplicit(d: Delivery, position: nat, reason: Reason, intent: Intent, time: Time): Delivery {
    ScheduleExplicit(Supersede(d, time), position, reason, intent, time)
  }

  /** The writes that attach a code, before the initial attempt is scheduled. */
  function Activate(d: Delivery, code: Id, time: Time): Delivery {
    d.(secrets := Some(Secrets(Some(code))),
       op := if d.op.state.Prepared?
             then d.op.(state := Active, nextUserSendAt := time + d.saved.resendCooldown) else d.op)
  }

  function NewDelivery(saved: Saved): Delivery {
    Delivery(saved, Routing(Prepared, None, 1, false, false, None, saved.createdAt, false), [], [], Some(Secrets(None)))
  }
}
