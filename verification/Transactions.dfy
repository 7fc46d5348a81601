/** The delivery engine as the source runs it: tables that transactions update row by row. Every method is
    proved to have exactly the effect of the corresponding transition of `Engine`. */
module Transactions {
  import opened Prelude
  import opened Records
  import opened Decision
  import opened Routing
  import opened RoutingInvariant
  import opened Authority
  import opened Quotas
  import opened Eligibility
  import opened Engine
  import opened EngineSteps
  import opened InboxSteps
  import opened EngineWrites
  import opened EngineRuns

  /** A loop that rewrites a sequence in place has finished `i` elements and then one more. */
  lemma OneMore<T>(done: seq<T>, todo: seq<T>, i: nat)
    requires |done| == |todo| && i < |todo|
    ensures (done[..i] + todo[i..])[i := done[i]] == done[..i + 1] + todo[i + 1..]
    ensures (done[..i] + todo[i..])[i] == todo[i]
    ensures done[i] == todo[i] ==> done[..i] + todo[i..] == done[..i + 1] + todo[i + 1..]
  {
  }

  lemma RecoveryOneMore(operation: Id, attempts: seq<Attempt>, i: nat, time: Time)
    requires i < |attempts|
    ensures RecoveryObservations(operation, attempts[..i + 1], time) ==
              RecoveryObservations(operation, attempts[..i], time) +
              if Overdue(attempts[i], time) then [Observation(AttemptId(operation, i), Uncertain, RecoveryCheck)] else []
  {
    assert attempts[..i + 1][..i] == attempts[..i];
  }

  /** The gate's three outcomes once authority permits the dispatch. */
  lemma GateAfterAuthority(db: Db, id: AttemptId, jobRevision: nat, time: Time, mergeTime: Time)
    requires Addressable(db, id)
    ensures var d := db.deliveries[id.operation];
            var p := StartProcessing(d);
            var target := ViewGate(db, id, time, mergeTime).target;
            var gated := GateLocked(db, id, jobRevision, time, mergeTime);
            match GateVerdictAt(db, id, jobRevision, time, mergeTime)
            case DropLimited =>
              gated == db.(deliveries := db.deliveries[id.operation :=
                WithAttempt(p, id.index, DroppedAttempt(d.attempts[id.index], Some(BudgetExhausted)))])
            case FailLocally =>
              gated == Merge(db.(deliveries := db.deliveries[id.operation := p]), id, LocalFailure(target), LocalCheck, mergeTime)
            case Commit =>
              gated == db.(
                deliveries := db.deliveries[id.operation := CommitDispatch(p, id.index, time)],
                env := db.env.(ledger := ExtendAdmission(
                  Count(db.env.ledger, SendLimits(db.env, d.saved, StepAt(db, id).instance), EventOf(id), time),
                  d.saved.recipient, EventOf(id), time)),
                reserved := db.reserved + {id},
                trail := db.trail + [Dispatched(id, d.saved.recipient, time)])
            case _ => true
  {
    hide RetryAt, CommonLimits, SendLimits, Count, ExtendAdmission, AvailableProviders, FindInstance, NextProvider, MergeOutcome,
      IntentEligible, Stale;
    var d := db.deliveries[id.operation];
    var p := StartProcessing(d);
    var view := ViewGate(db, id, time, mergeTime);
    var e := MergeOutcome(p, id.index, LocalFailure(view.target), view.eligible, view.next, mergeTime);
    assert db.deliveries[id.operation := p][id.operation := e] == db.deliveries[id.operation := e];
  }

  /** The order is an enumeration of all references that the acceptance and its events touch. */
  ghost predicate EnumeratesTouched(expired: Db, id: AttemptId, request: Option<Id>, events: seq<CallbackEvent>,
                                    order: seq<Reference>, time: Time, mergeTime: Time) {
    && Addressable(expired, id)
    && var acknowledged := Acknowledge(expired, id, request, time, mergeTime);
       acknowledged.Some? && Enumerates(order, BatchReferences(acknowledged.value, StepAt(expired, id).instance, events))
  }

  /** What a transaction saves in order to roll back. */
  datatype Savepoint = Savepoint(
    clock: Time, env: Environment, deliveries: map<Id, Delivery>, blocks: map<Id, Block>, inbox: seq<InboxRow>,
    correlations: map<Alias, AttemptId>)

  function Tables(db: Db): Savepoint {
    Savepoint(db.clock, db.env, db.deliveries, db.blocks, db.inbox, db.correlations)
  }

  class DeliveryEngine {
    const settings: Settings
    var clock: Time
    var world: World
    var ledger: Ledger
    var restrictions: map<Id, Time>
    var deliveries: map<Id, Delivery>
    var blocks: map<Id, Block>
    var inbox: seq<InboxRow>
    var correlations: map<Alias, AttemptId>
    // The history of what was applied, reserved and durably done.
    ghost var observations: seq<Observation>
    ghost var reserved: set<AttemptId>
    ghost var trail: seq<Fact>

    function Env(): Environment
      reads this
    {
      Environment(settings, world, ledger, restrictions)
    }

    ghost function State(): Db
      reads this
    {
      Db(clock, Env(), deliveries, blocks, inbox, correlations, observations, reserved, trail)
    }

    constructor (settings: Settings, clock: Time)
      ensures State() == EmptyDb(settings, clock)
    {
      this.settings := settings;
      this.clock := clock;
      world := World(map[], [], map[], [], map[], map[]);
      ledger := Ledger(map[], {});
      restrictions := map[];
      deliveries := map[];
      blocks := map[];
      inbox := [];
      correlations := map[];
      observations := [];
      reserved := {};
      trail := [];
    }

    method BeginTransaction() returns (t: Savepoint)
      ensures t == Tables(State())
    {
      t := Savepoint(clock, Env(), deliveries, blocks, inbox, correlations);
    }

    /** Puts the tables back, and with them the history. */
    method RollBack(t: Savepoint, ghost before: Db)
      requires t == Tables(before) && before.env.settings == settings
      modifies this
      ensures State() == before
    {
      clock, world, ledger, restrictions := t.clock, t.env.world, t.env.ledger, t.env.restrictions;
      deliveries, blocks, inbox, correlations := t.deliveries, t.blocks, t.inbox, t.correlations;
      observations, reserved, trail := before.observations, before.reserved, before.trail;
    }

    /** A reading of the database clock. */
    method DatabaseTime(time: Time)
      modifies this`clock
      ensures clock == Max(old(clock), time)
    {
      if clock < time {
        clock := time;
      }
    }

    // -------------------------------------------------------------------- attempts.ts

    method SuppressPendingAttempts(operation: Id, onlyFallback: bool)
      requires operation in deliveries
      modifies this`deliveries
      ensures deliveries == old(deliveries)[operation := SuppressPending(old(deliveries)[operation], onlyFallback)]
    {
      ghost var before := deliveries;
      var d := deliveries[operation];
      ghost var done := SuppressPending(d, onlyFallback).attempts;
      var i := 0;
      assert done[..0] + d.attempts[0..] == d.attempts;
      assert before == before[operation := d];
      while i < |d.attempts|
        invariant 0 <= i <= |d.attempts|
        invariant deliveries == before[operation := d.(attempts := done[..i] + d.attempts[i..])]
      {
        var a := deliveries[operation].attempts[i];
        OneMore(done, d.attempts, i);
        if a.evidence.state.Pending? && (!onlyFallback || a.route.reason.Fallback?) {
          deliveries := deliveries[operation := WithAttempt(deliveries[operation], i, SuppressAttempt(a))];
        }
        i := i + 1;
      }
      assert done[..i] + d.attempts[i..] == done;
    }

    // ----------------------------------------------------------------------- store.ts

    method EraseSecretsOf(operation: Id)
      requires operation in deliveries
      modifies this`deliveries
      ensures deliveries == old(deliveries)[operation := EraseSecrets(old(deliveries)[operation])]
    {
      deliveries := deliveries[operation := deliveries[operation].(secrets := None)];
      SuppressPendingAttempts(operation, false);
    }

    method TerminateOperation(operation: Id, state: OperationState, time: Time)
      requires operation in deliveries
      modifies this`deliveries
      ensures deliveries == old(deliveries)[operation := Terminate(old(deliveries)[operation], state, time)]
    {
      var d := deliveries[operation];
      if Live(d.op) {
        deliveries := deliveries[operation := d.(op := d.op.(
          state := state, terminalAt := Some(time), revision := d.op.revision + 1, automaticStopped := true))];
      }
      EraseSecretsOf(operation);
    }

    method Expire(operation: Id, time: Time)
      modifies this`clock, this`deliveries
      ensures State() == ExpireOperation(old(State()), operation, time)
    {
      DatabaseTime(time);
      if operation in deliveries {
        var d := deliveries[operation];
        if Live(d.op) && time >= d.saved.expiresAt {
          TerminateOperation(operation, Expired, time);
        } else {
          assert deliveries == deliveries[operation := d];
        }
      }
    }

    method CloseOperation(operation: Id, time: Time)
      modifies this`clock, this`deliveries
      ensures State() == Close(old(State()), operation, time)
    {
      Expire(operation, time);
      if operation in deliveries && Live(deliveries[operation].op) {
        TerminateOperation(operation, Closed, time);
      }
    }

    // -------------------------------------------------------------------- schedule.ts

    /** Inserts the attempt and its alias and makes it the current one. */
    method ScheduleAttempt(operation: Id, position: nat, reason: Reason, intent: nat, time: Time) returns (id: AttemptId)
      requires operation in deliveries && position < |deliveries[operation].saved.steps|
      modifies this`deliveries, this`correlations
      ensures id == AttemptId(operation, |old(deliveries)[operation].attempts|)
      ensures deliveries == old(deliveries)[operation := Schedule(old(deliveries)[operation], position, reason, intent, time)]
      ensures correlations ==
                old(correlations)[Alias(old(deliveries)[operation].saved.steps[position].instance, AttemptReference(id)) := id]
    {
      var d := deliveries[operation];
      id := AttemptId(operation, |d.attempts|);
      deliveries := deliveries[operation := d.(attempts := d.attempts + [NewAttempt(d, position, reason, intent, time)])];
      correlations := correlations[Alias(d.saved.steps[position].instance, AttemptReference(id)) := id];
      deliveries := deliveries[operation := deliveries[operation].(op := d.op.(current := Some(id.index)))];
    }

    // ----------------------------------------------------------------- eligibility.ts

    /** The authorized steps whose window fits, in route order, with their retry instants. */
    method FindAvailableProviders(saved: Saved, time: Time, intent: Option<Intent>) returns (candidates: seq<Availability>)
      ensures candidates == AvailableProviders(Env(), saved, time, intent)
    {
      candidates := [];
      if !PolicyOpen(world, saved) {
        return;
      }
      var position := 0;
      while position < |saved.steps|
        invariant 0 <= position <= |saved.steps|
        invariant candidates == Candidates(Env(), saved, time, intent, position)
      {
        var step := saved.steps[position];
        if StepAuthorized(world, saved, position, intent) && DeliveryWindowFits(step, saved.expiresAt - time) {
          var retryAt := Later(RetryAt(ledger, SendLimits(Env(), saved, step.instance), time), Restriction(Env(), step.instance, time));
          candidates := candidates + [Availability(position, step.instance, retryAt)];
        }
        position := position + 1;
      }
    }

    // -------------------------------------------------------------------- outcomes.ts

    /** The attempt's evidence columns, the stop flags, and the suppression that goes with them. */
    method ApplyDecision(id: AttemptId, outcome: Outcome, decision: Decision)
      requires id.operation in deliveries && id.index < |deliveries[id.operation].attempts|
      requires decision == DecideOutcome(deliveries[id.operation], id.index, outcome)
      modifies this`deliveries
      ensures deliveries ==
                old(deliveries)[id.operation := RecordEvidence(old(deliveries)[id.operation], id.index, outcome)]
    {
      var operation := id.operation;
      var d := deliveries[operation];
      var a := d.attempts[id.index];
      if !decision.applies {
        if outcome.notInvoked {
          deliveries := deliveries[operation := WithAttempt(d, id.index, a.(invocation := NotInvoked))];
        } else {
          assert WithAttempt(d, id.index, a.(invocation := a.invocation)) == d;
          assert deliveries == deliveries[operation := d];
        }
        return;
      }
      var invocation := if outcome.notInvoked then NotInvoked else a.invocation;
      deliveries := deliveries[operation := WithAttempt(d, id.index, a.(invocation := invocation, evidence := decision.evidence))];
      if decision.stopAutomatic {
        var r := deliveries[operation];
        deliveries := deliveries[operation := r.(op := r.op.(
          automaticStopped := true, recipientInvalid := decision.recipientInvalid))];
      }
      match decision.suppress {
        case SuppressAll => SuppressPendingAttempts(operation, false);
        case SuppressFallback => SuppressPendingAttempts(operation, true);
        case SuppressNone =>
      }
    }

    /** A confirmed failure may schedule the next available provider, under the same intent. */
    method AdvanceRoute(id: AttemptId, d: Delivery, intent: Intent, time: Time)
      requires id.operation in deliveries && id.index < |d.attempts|
      requires deliveries[id.operation].saved == d.saved
      modifies this`deliveries, this`correlations
      ensures var position := d.attempts[id.index].route.position;
              var next := NextProvider(AvailableProviders(Env(), d.saved, time, Some(intent)), position);
              var r := old(deliveries)[id.operation];
              if next.Some? && next.value.retryAt.None? && SendCount(d) < d.saved.maxSends then
                && position < next.value.position < |d.saved.steps|
                && deliveries == old(deliveries)[id.operation :=
                     Schedule(r, next.value.position, Fallback, d.attempts[id.index].route.intent, time)]
                && correlations == old(correlations)[
                     Alias(d.saved.steps[next.value.position].instance, AttemptReference(AttemptId(id.operation, |r.attempts|)))
                       := AttemptId(id.operation, |r.attempts|)]
              else deliveries == old(deliveries) && correlations == old(correlations)
    {
      hide AvailableProviders, NextProvider, Schedule;
      var a := d.attempts[id.index];
      var available := FindAvailableProviders(d.saved, time, Some(intent));
      var target := NextProvider(available, a.route.position);
      NextIsLater(Env(), d.saved, time, Some(intent), a.route.position);
      if target.Some? && target.value.retryAt.None? && SendCount(d) < d.saved.maxSends {
        var fallback := ScheduleAttempt(id.operation, target.value.position, Fallback, a.route.intent, time);
      }
    }

    method RestrictProvider(instance: Id, retryAt: Option<Time>)
      modifies this`restrictions
      ensures Env() == Restrict(old(Env()), instance, retryAt)
    {
      if retryAt.Some? {
        restrictions := restrictions[instance :=
          if instance in restrictions then Max(restrictions[instance], retryAt.value) else retryAt.value];
      }
    }

    method MergeLockedOutcome(id: AttemptId, outcome: Outcome, ghost source: Source, time: Time)
      requires Addressable(State(), id)
      modifies this
      ensures State() == Merge(old(State()), id, outcome, source, time)
    {
      hide RecordEvidence, DecideOutcome, AvailableProviders, NextProvider, IntentEligible, Restrict;
      ghost var rows := deliveries;
      var d := deliveries[id.operation];
      var a := d.attempts[id.index];
      var intent := d.intents[a.route.intent];
      DatabaseTime(time);
      observations := observations + [Observation(id, outcome.state, source)];
      var decision := DecideOutcome(d, id.index, outcome);
      RestrictProvider(d.saved.steps[a.route.position].instance, outcome.retryAt);
      ApplyDecision(id, outcome, decision);
      RecordedShape(d, id.index, outcome);
      if decision.advance && d.saved.confirmedFailureFallback && IntentEligible(world, d.saved, intent) {
        AdvanceRoute(id, d, intent, time);
      }
      ghost var position := a.route.position;
      ghost var next := NextProvider(AvailableProviders(Env(), d.saved, time, Some(intent)), position);
      ghost var e := MergeOutcome(d, id.index, outcome, IntentEligible(world, d.saved, intent), next, time);
      assert deliveries == rows[id.operation := e];
      assert correlations == RegisterScheduled(old(correlations), id.operation, |d.attempts|, e);
    }

    lemma RecordedShape(d: Delivery, i: nat, outcome: Outcome)
      requires i < |d.attempts|
      ensures var r := RecordEvidence(d, i, outcome); r.saved == d.saved && |r.attempts| == |d.attempts|
    {
    }

    method RecordOutcomeOf(id: AttemptId, outcome: Outcome, time: Time, mergeTime: Time)
      modifies this
      ensures State() == RecordOutcome(old(State()), id, outcome, time, mergeTime)
    {
      Expire(id.operation, time);
      if id.operation in deliveries && id.index < |deliveries[id.operation].attempts|
         && deliveries[id.operation].attempts[id.index].route.position < |deliveries[id.operation].saved.steps|
         && deliveries[id.operation].attempts[id.index].route.intent < |deliveries[id.operation].intents| {
        MergeLockedOutcome(id, outcome, Response, mergeTime);
      }
    }

    /** Stores one attempt row of an operation. */
    method UpdateAttempt(id: AttemptId, a: Attempt)
      requires id.operation in deliveries && id.index < |deliveries[id.operation].attempts|
      modifies this`deliveries
      ensures deliveries == old(deliveries)[id.operation := WithAttempt(old(deliveries)[id.operation], id.index, a)]
    {
      deliveries := deliveries[id.operation := WithAttempt(deliveries[id.operation], id.index, a)];
    }

    // -------------------------------------------------------------------- recovery.ts

    /** Moves the operation's overdue dispatches to `uncertain`. */
    method RecoverAttempts(operation: Id, time: Time)
      requires operation in deliveries
      modifies this`deliveries, this`observations
      ensures deliveries == old(deliveries)[operation := RecoverOverdue(old(deliveries)[operation], time)]
      ensures observations == old(observations) + RecoveryObservations(operation, old(deliveries)[operation].attempts, time)
    {
      ghost var rows := deliveries;
      ghost var seen := observations;
      var d := deliveries[operation];
      ghost var done := RecoverOverdue(d, time).attempts;
      var i := 0;
      assert done[..0] + d.attempts[0..] == d.attempts;
      assert rows == rows[operation := d];
      while i < |d.attempts|
        invariant 0 <= i <= |d.attempts|
        invariant deliveries == rows[operation := d.(attempts := done[..i] + d.attempts[i..])]
        invariant observations == seen + RecoveryObservations(operation, d.attempts[..i], time)
      {
        var a := d.attempts[i];
        OneMore(done, d.attempts, i);
        RecoveryOneMore(operation, d.attempts, i, time);
        if a.evidence.state.Dispatching? && a.recoveryAt.Some? && a.recoveryAt.value <= time {
          deliveries := deliveries[operation := WithAttempt(deliveries[operation], i, RecoverAttempt(a))];
          observations := observations + [Observation(AttemptId(operation, i), Uncertain, RecoveryCheck)];
        }
        i := i + 1;
      }
      assert done[..i] + d.attempts[i..] == done;
      assert d.attempts[..i] == d.attempts;
    }

    /** One batch: each listed operation is locked, expired and recovered. */
    method RecoverBatch(operations: seq<Id>, time: Time)
      modifies this`clock, this`deliveries, this`observations
      ensures State() == RecoverAll(old(State()), operations, time)
    {
      ghost var before := State();
      for i := 0 to |operations|
        invariant State() == RecoverAll(before, operations[..i], time)
      {
        assert operations[..i + 1][..i] == operations[..i];
        Expire(operations[i], time);
        if operations[i] in deliveries {
          ghost var known := |deliveries[operations[i]].attempts|;
          RecoverAttempts(operations[i], time);
        }
      }
      assert operations[..|operations|] == operations;
    }

    // --------------------------------------------------------------- authorization.ts

    method ClaimAuthorizationOf(id: AttemptId, jobRevision: nat, expiryTime: Time, time: Time) returns (claim: Option<Claim>)
      requires Addressable(State(), id)
      modifies this`clock, this`deliveries, this`trail
      ensures State() == ClaimAttempt(old(State()), id, jobRevision, expiryTime, time)
      ensures claim == GivenClaim(old(State()), id, jobRevision, expiryTime, time)
      ensures claim.Some? ==> WasClaimed(State(), claim.value) && claim.value.attempt == id
    {
      hide IntentEligible, LapsedAttempt, DispatchDeadline;
      Expire(id.operation, expiryTime);
      DatabaseTime(time);
      claim := None;
      var d := deliveries[id.operation];
      var a := d.attempts[id.index];
      assert deliveries == deliveries[id.operation := d];
      if !a.evidence.state.Pending? || !a.auth.state.Awaiting? {
        return;
      }
      var eligible := IntentEligible(world, d.saved, d.intents[a.route.intent]);
      if !eligible || !d.op.state.Active? || d.op.revision != jobRevision || time >= DispatchDeadline(d, id.index) {
        UpdateAttempt(id, LapsedAttempt(a));
        return;
      }
      var block := if d.saved.project in blocks then blocks[d.saved.project] else Block(None, 0);
      if block.until.Some? && block.until.value > time {
        return;
      }
      if (a.auth.leaseUntil.Some? && a.auth.leaseUntil.value > time) || (a.auth.retryAt.Some? && a.auth.retryAt.value > time) {
        return;
      }
      UpdateAttempt(id, ClaimedAttempt(a, time, block));
      claim := Some(Claim(id, a.auth.generation + 1, block.generation));
      trail := trail + [Claimed(claim.value, time)];
      assert trail[|trail| - 1].claim == claim.value;
    }

    /** Postpones a pending decision; an expired attempt is left alone. */
    method WaitForAuthorization(id: AttemptId, time: Time, retryAt: Time)
      requires id.operation in deliveries && id.index < |deliveries[id.operation].attempts|
      modifies this`deliveries
      ensures deliveries == old(deliveries)[id.operation :=
                WithAttempt(old(deliveries)[id.operation], id.index,
                  WaitingAttempt(old(deliveries)[id.operation].attempts[id.index], time, retryAt))]
    {
      var a := deliveries[id.operation].attempts[id.index];
      if !a.auth.state.Awaiting? {
        assert WithAttempt(deliveries[id.operation], id.index, a) == deliveries[id.operation];
        assert deliveries == deliveries[id.operation := deliveries[id.operation]];
        return;
      }
      UpdateAttempt(id, a.(
        auth := a.auth.(leaseUntil := None, retryAt := Some(Max(time + 5000, retryAt))),
        evidence := a.evidence.(diagnosticCode := Some(AuthorizationPending))));
    }

    method RecordProjectDenial(project: Id, time: Time, retryAt: Time)
      modifies this`blocks, this`trail
      ensures blocks == old(blocks)[project := RecordDenial(BlockOf(old(State()), project), time, retryAt)]
      ensures trail == old(trail) + [ProjectDenied(project, Max(time + 1000, retryAt))]
    {
      var until := Max(time + 1000, retryAt);
      if project in blocks {
        blocks := blocks[project := Block(Some(Latest(blocks[project].until, until)), blocks[project].generation + 1)];
      } else {
        blocks := blocks[project := Block(Some(until), 1)];
      }
      trail := trail + [ProjectDenied(project, until)];
    }

    /** An approval is stored even when it can no longer be used. */
    method ApproveLocked(claim: Claim, until: Time, time: Time)
      requires Addressable(State(), claim.attempt)
      modifies this`deliveries
      ensures var id := claim.attempt;
              var d := old(deliveries)[id.operation];
              var validUntil := Min(until, DispatchDeadline(d, id.index));
              var usable := UsableDecision(d, id.index, claim, validUntil, time,
                              IntentEligible(world, d.saved, IntentAt(old(State()), id)), BlockOf(old(State()), d.saved.project));
              deliveries == old(deliveries)[id.operation :=
                WithAttempt(d, id.index, ApprovedAttempt(d.attempts[id.index], time, validUntil, usable))]
    {
      hide IntentEligible;
      var id := claim.attempt;
      var d := deliveries[id.operation];
      var a := d.attempts[id.index];
      var validUntil := Min(until, DispatchDeadline(d, id.index));
      var block := if d.saved.project in blocks then blocks[d.saved.project] else Block(None, 0);
      var usable :=
        && IntentEligible(world, d.saved, d.intents[a.route.intent])
        && a.evidence.state.Pending?
        && d.op.state.Active?
        && d.op.revision == a.route.revision
        && validUntil > time
        && block.generation == claim.projectGeneration;
      UpdateAttempt(id, ApprovedAttempt(a, time, validUntil, usable));
    }

    method FinishAuthorizationLocked(claim: Claim, decision: AuthorityDecision, time: Time)
      requires Addressable(State(), claim.attempt)
      modifies this`clock, this`deliveries, this`blocks, this`trail
      ensures State() == FinishLocked(old(State()), claim, decision, time)
    {
      hide IntentEligible, ApprovedAttempt, UsableDecision, DispatchDeadline, RecordDenial;
      DatabaseTime(time);
      var id := claim.attempt;
      var d := deliveries[id.operation];
      var a := d.attempts[id.index];
      if a.auth.generation != claim.generation || !(a.auth.state.Awaiting? || a.auth.state.Lapsed?) {
        assert deliveries == deliveries[id.operation := d];
        return;
      }
      match decision {
        case NoDecision => WaitForAuthorization(id, time, 0);
        case Wait(retryAt) => WaitForAuthorization(id, time, retryAt);
        case DenyRoute => UpdateAttempt(id, DeniedAttempt(a));
        case DenyProject(retryAt) =>
          RecordProjectDenial(d.saved.project, time, retryAt);
          UpdateAttempt(id, DeniedAttempt(a));
        case Approve(until) => ApproveLocked(claim, until, time);
      }
    }

    method FinishAuthorizationOf(claim: Claim, decision: AuthorityDecision, expiryTime: Time, time: Time)
      requires Addressable(State(), claim.attempt)
      modifies this`clock, this`deliveries, this`blocks, this`trail
      ensures State() == FinishAttempt(old(State()), claim, decision, expiryTime, time)
    {
      hide FinishLocked;
      Expire(claim.attempt.operation, expiryTime);
      FinishAuthorizationLocked(claim, decision, time);
    }

    // ----------------------------------------------------------------------- quotas.ts

    /** Counts one event once per kind and allocates it to every scope of the limits. */
    method CountQuotas(limits: seq<Limit>, event: EventId, time: Time)
      modifies this`ledger
      ensures ledger == Count(old(ledger), limits, event, time)
    {
      ghost var before := ledger;
      for i := 0 to |limits|
        invariant ledger == Count(before, limits[..i], event, time)
      {
        assert limits[..i + 1][..i] == limits[..i];
        var limit := limits[i];
        var key := EventKey(event, limit.kind);
        if key !in ledger.events {
          ledger := ledger.(events := ledger.events[key := time]);
        }
        ledger := ledger.(allocations := ledger.allocations + {Allocation(limit.scope, limit.scopeId, limit.kind, event)});
      }
      assert limits[..|limits|] == limits;
    }

    /** Moves the recipient's admission event forward, never back. */
    method ExtendAdmissionOf(recipient: Id, event: EventId, time: Time)
      modifies this`ledger
      ensures ledger == ExtendAdmission(old(ledger), recipient, event, time)
    {
      var key := EventKey(event, Kind.Admission);
      if key !in ledger.events || ledger.events[key] < time {
        ledger := ledger.(events := ledger.events[key := time]);
      } else {
        assert ledger.events == ledger.events[key := ledger.events[key]];
      }
      ledger := ledger.(allocations := ledger.allocations + {Allocation(RecipientScope, recipient, Kind.Admission, event)});
    }

    /** Deletes old events with their allocations. */
    method CleanupQuotas(doomed: set<EventKey>, time: Time)
      modifies this`clock, this`ledger
      ensures State() == Clean(old(State()), doomed, time)
    {
      DatabaseTime(time);
      ledger := Ledger(
        map k | k in ledger.events && k !in doomed :: ledger.events[k],
        set a | a in ledger.allocations && KeyOf(a) !in doomed);
    }

    // --------------------------------------------------------------------- dispatch.ts

    /** Whether the authority lets the attempt go now; an approval that can no longer be used ends it. */
    method AuthorizationPermitsDispatch(id: AttemptId, time: Time) returns (permitted: bool)
      requires id.operation in deliveries && id.index < |deliveries[id.operation].attempts|
      modifies this`deliveries
      ensures var d := old(deliveries)[id.operation];
              var a := d.attempts[id.index];
              var block := BlockOf(old(State()), d.saved.project);
              var required := d.saved.authorizationRequired;
              && (permitted <==>
                    !InsideBlock(block, time) && (required ==> !a.auth.state.Awaiting? && UsableApproval(a.auth, block, time)))
              && deliveries ==
                   if !InsideBlock(block, time) && required && !a.auth.state.Awaiting? && !UsableApproval(a.auth, block, time)
                   then old(deliveries)[id.operation := WithAttempt(d, id.index, DroppedAttempt(a, Some(ApprovalUnused)))]
                   else old(deliveries)
    {
      var d := deliveries[id.operation];
      var a := d.attempts[id.index];
      var block := if d.saved.project in blocks then blocks[d.saved.project] else Block(None, 0);
      if block.until.Some? && block.until.value > time {
        return false;
      }
      if d.saved.authorizationRequired {
        if a.auth.state.Awaiting? {
          return false;
        }
        if !a.auth.state.Approved? || a.auth.expiresAt.None? || a.auth.expiresAt.value <= time
           || a.auth.projectGeneration != block.generation {
          UpdateAttempt(id, DroppedAttempt(a, Some(ApprovalUnused)));
          return false;
        }
      }
      return true;
    }

    /** The durable dispatch commitment: all charges, the attempt's columns and the cooldown. */
    method CommitLocked(id: AttemptId, time: Time)
      requires Addressable(State(), id)
      modifies this`deliveries, this`ledger, this`reserved, this`trail
      ensures var d := old(deliveries)[id.operation];
              var limits := SendLimits(old(Env()), d.saved, StepAt(old(State()), id).instance);
              && deliveries == old(deliveries)[id.operation := CommitDispatch(d, id.index, time)]
              && ledger == ExtendAdmission(Count(old(ledger), limits, EventOf(id), time), d.saved.recipient, EventOf(id), time)
              && reserved == old(reserved) + {id}
              && trail == old(trail) + [Dispatched(id, d.saved.recipient, time)]
    {
      hide Count, ExtendAdmission, SendLimits;
      var d := deliveries[id.operation];
      var a := d.attempts[id.index];
      var step := d.saved.steps[a.route.position];
      CountQuotas(SendLimits(Env(), d.saved, step.instance), EventOf(id), time);
      ExtendAdmissionOf(d.saved.recipient, EventOf(id), time);
      UpdateAttempt(id, CommitAttempt(a, step, time));
      var c := deliveries[id.operation];
      deliveries := deliveries[id.operation := c.(op := c.op.(
        nextUserSendAt := Max(c.op.nextUserSendAt, time + d.saved.resendCooldown)))];
      reserved := reserved + {id};
      trail := trail + [Dispatched(id, d.saved.recipient, time)];
    }

    /** The gate after authority: budgets, the provider's availability, and then the commitment. */
    method DispatchPermitted(id: AttemptId, time: Time, mergeTime: Time) returns (committed: bool)
      requires Addressable(State(), id) && clock == time <= mergeTime
      modifies this
      ensures var db := old(State());
              var d := db.deliveries[id.operation];
              var intent := IntentAt(db, id);
              var target := FindInstance(AvailableProviders(db.env, d.saved, time, Some(intent)), StepAt(db, id).instance);
              var p := StartProcessing(d);
              if RetryAt(db.env.ledger, CommonLimits(db.env, d.saved), time).Some? || SendCount(d) >= d.saved.maxSends then
                && !committed
                && State() == db.(deliveries := db.deliveries[id.operation :=
                     WithAttempt(p, id.index, DroppedAttempt(d.attempts[id.index], Some(BudgetExhausted)))])
              else if target.None? || target.value.retryAt.Some? then
                !committed && State() == Merge(db.(deliveries := db.deliveries[id.operation := p]), id, LocalFailure(target), LocalCheck, mergeTime)
              else
                && committed
                && State() == db.(
                     deliveries := db.deliveries[id.operation := CommitDispatch(p, id.index, time)],
                     env := db.env.(ledger := ExtendAdmission(
                       Count(db.env.ledger, SendLimits(db.env, d.saved, StepAt(db, id).instance), EventOf(id), time),
                       d.saved.recipient, EventOf(id), time)),
                     reserved := db.reserved + {id},
                     trail := db.trail + [Dispatched(id, d.saved.recipient, time)])
    {
      hide RetryAt, CommonLimits, SendLimits, Count, ExtendAdmission, AvailableProviders, FindInstance, Merge, CommitDispatch, DroppedAttempt;
      var d := deliveries[id.operation];
      var a := d.attempts[id.index];
      deliveries := deliveries[id.operation := d.(op := d.op.(processingStarted := true))];
      var budget := RetryAt(ledger, CommonLimits(Env(), d.saved), time);
      if budget.Some? || SendCount(d) >= d.saved.maxSends {
        UpdateAttempt(id, DroppedAttempt(a, Some(BudgetExhausted)));
        return false;
      }
      var available := FindAvailableProviders(d.saved, time, Some(d.intents[a.route.intent]));
      var target := FindInstance(available, d.saved.steps[a.route.position].instance);
      if target.None? || target.value.retryAt.Some? {
        MergeLockedOutcome(id, LocalFailure(target), LocalCheck, mergeTime);
        return false;
      }
      CommitLocked(id, time);
      return true;
    }

    /** `dispatchGate`: a committed attempt is handed to this worker, which holds the reservation. */
    method DispatchGateFor(id: AttemptId, jobRevision: nat, time: Time, mergeTime: Time) returns (committed: bool)
      requires Addressable(State(), id) && clock <= time <= mergeTime
      modifies this
      ensures State() == DispatchGate(old(State()), id, jobRevision, time, mergeTime)
      ensures committed <==> GateVerdictAt(ExpireOperation(old(State()), id.operation, time), id, jobRevision, time, mergeTime).Commit?
    {
      hide GateLocked;
      Expire(id.operation, time);
      committed := GateAttempt(id, jobRevision, time, mergeTime);
    }

    method GateAttempt(id: AttemptId, jobRevision: nat, time: Time, mergeTime: Time) returns (committed: bool)
      requires Addressable(State(), id) && clock == time <= mergeTime
      modifies this
      ensures State() == GateLocked(old(State()), id, jobRevision, time, mergeTime)
      ensures committed <==> GateVerdictAt(old(State()), id, jobRevision, time, mergeTime).Commit?
    {
      hide RetryAt, CommonLimits, SendLimits, Count, ExtendAdmission, AvailableProviders, FindInstance, NextProvider, MergeOutcome,
        CommitDispatch, DroppedAttempt, IntentEligible, Stale;
      ghost var rows := deliveries;
      GateAfterAuthority(State(), id, jobRevision, time, mergeTime);
      var d := deliveries[id.operation];
      var a := d.attempts[id.index];
      assert rows == rows[id.operation := d];
      if a.evidence.state.Dispatching? {
        if a.recoveryAt.Some? && a.recoveryAt.value <= time {
          UpdateAttempt(id, RecoverAttempt(a));
          observations := observations + [Observation(id, Uncertain, RecoveryCheck)];
        }
        return false;
      }
      if !a.evidence.state.Pending? {
        return false;
      }
      if Stale(d, id.index, jobRevision) || !IntentEligible(world, d.saved, d.intents[a.route.intent]) {
        UpdateAttempt(id, DroppedAttempt(a, None));
        return false;
      }
      var permitted := AuthorizationPermitsDispatch(id, time);
      if !permitted {
        return false;
      }
      committed := DispatchPermitted(id, time, mergeTime);
    }

    /** The one provider call that a reservation stands for. */
    method CallProvider(id: AttemptId)
      modifies this`reserved, this`trail
      ensures State() == Invoke(old(State()), id)
    {
      if id in reserved {
        reserved := reserved - {id};
        trail := trail + [Called(id)];
      }
    }

    // -------------------------------------------------------------- runtime/store.ts

    /** The grants and epochs that a command captures for its intent. */
    method CaptureAuthorityOf(project: Id, policy: Id, instances: seq<Id>) returns (r: Result<CapturedAuthority>)
      ensures r == CaptureAuthority(world, project, policy, instances)
    {
      var grant := ActiveGrant(world, project, PolicyKey(policy));
      if !EnabledResource(world, PolicyKey(policy)) || grant.None? {
        return Failure(PolicyNotAllowed);
      }
      var steps: seq<StepAuthority> := [];
      for i := 0 to |instances|
        invariant steps == CaptureSteps(world, project, instances[..i])
      {
        assert instances[..i + 1][..i] == instances[..i];
        var authority := InstanceAuthority(world, project, instances[i], None);
        if authority.Some? {
          steps := steps + [authority.value];
        }
      }
      assert instances[..|instances|] == instances;
      return Success(CapturedAuthority(grant.value, world.resources[PolicyKey(policy)].epoch, steps));
    }

    // ----------------------------------------------------------- actions.ts, schedule.ts

    /** Captures an intent for the caller and schedules the attempt under it. */
    method ScheduleCommandFor(operation: Id, position: nat, reason: Reason, principal: Id, time: Time)
      returns (r: Result<AttemptId>)
      requires operation in deliveries && position < |deliveries[operation].saved.steps|
      modifies this`deliveries, this`correlations
      ensures Reply(State(), r) == ScheduleCommand(old(State()), operation, position, reason, principal, time)
    {
      hide RequireAccess, CaptureAuthority;
      var d := deliveries[operation];
      var access := RequireAccess(world, d.saved.project, principal, true);
      if access.Failure? {
        return Failure(access.error);
      }
      var authority := CaptureAuthorityOf(d.saved.project, d.saved.policy, Instances(d.saved));
      if authority.Failure? {
        return Failure(authority.error);
      }
      AccessedProject(world, d.saved.project, principal);
      var intent := Intent(d.saved.project, access.value, world.projects[d.saved.project].sendEpoch, reason, time, authority.value);
      deliveries := deliveries[operation := d.(intents := d.intents + [intent])];
      var id := ScheduleAttempt(operation, position, reason, |d.intents|, time);
      return Success(id);
    }

    lemma AccessedProject(w: World, project: Id, principal: Id)
      requires RequireAccess(w, project, principal, true).Success?
      ensures project in w.projects
    {
    }

    /** What the caller may send to now, or why nothing. */
    method ChooseTargetFor(d: Delivery, action: Action, time: Time) returns (target: Result<Availability>)
      ensures target == ChooseTarget(State(), d, action, time)
    {
      hide RetryAt, AvailableProviders, SelectTarget;
      if !d.op.state.Active? {
        return Failure(OperationUnavailable);
      }
      if d.op.current.None? || d.op.current.value >= |d.attempts| || d.op.recipientInvalid {
        return Failure(DeliveryUnavailable);
      }
      var available := FindAvailableProviders(d.saved, time, None);
      target := SelectTarget(d, d.op.current.value, action, available);
      if target.Success? {
        var admission := RetryAt(ledger, [AdmissionLimit(d.saved.recipient)], time);
        var blocked := UserSendBlock(d, time, admission, target.value.retryAt);
        if blocked.Some? {
          target := Failure(blocked.value);
        }
      }
    }

    method RequestSendFor(operation: Id, principal: Id, action: Action, time: Time) returns (r: Result<AttemptId>)
      modifies this
      ensures Reply(State(), r) == RequestSend(old(State()), operation, principal, action, time)
    {
      hide ChooseTarget, RequestSendLocked;
      if operation !in deliveries {
        return Failure(OperationNotFound);
      }
      var access := RequireAccess(world, deliveries[operation].saved.project, principal, true);
      if access.Failure? {
        return Failure(access.error);
      }
      Expire(operation, time);
      r := RequestLocked(operation, principal, action, time);
    }

    method RequestLocked(operation: Id, principal: Id, action: Action, time: Time) returns (r: Result<AttemptId>)
      requires operation in deliveries
      modifies this
      ensures Reply(State(), r) == RequestSendLocked(old(State()), operation, principal, action, time)
    {
      hide ChooseTarget, ScheduleCommand, Count, SuppressPending, RequireAccess;
      var d := deliveries[operation];
      var target := ChooseTargetFor(d, action, time);
      if target.Failure? {
        return Failure(target.error);
      }
      ghost var before := State();
      TargetPosition(before, d, action, time);
      SuppressPendingAttempts(operation, false);
      var quiet := deliveries[operation];
      SuppressedShape(d);
      deliveries := deliveries[operation := quiet.(op := quiet.op.(
        revision := quiet.op.revision + 1, automaticStopped := false, nextUserSendAt := time + d.saved.resendCooldown))];
      assert State() == Store(before, operation, Supersede(d, time));
      r := ScheduleCommandFor(operation, target.value.position, ReasonOf(action), principal, time);
      if r.Success? {
        CountQuotas([AdmissionLimit(d.saved.recipient)], EventOf(r.value), time);
        trail := trail + [Explicit(r.value, d.saved.recipient, time)];
        ScheduledState(Store(before, operation, Supersede(d, time)), operation, target.value.position, ReasonOf(action), principal, time);
      }
    }

    lemma TargetPosition(db: Db, d: Delivery, action: Action, time: Time)
      ensures var target := ChooseTarget(db, d, action, time); target.Success? ==> target.value.position < |d.saved.steps|
    {
      if ChooseTarget(db, d, action, time).Success? {
        TargetOffered(db, d, action, time);
        AvailableExact(db.env, d.saved, time, None, ChooseTarget(db, d, action, time).value);
      }
    }

    lemma SuppressedShape(d: Delivery)
      ensures var q := SuppressPending(d, false); q.saved == d.saved && |q.attempts| == |d.attempts|
    {
    }

    lemma ScheduledState(db: Db, operation: Id, position: nat, reason: Reason, principal: Id, time: Time)
      requires operation in db.deliveries
      ensures var s := ScheduleCommand(db, operation, position, reason, principal, time).db;
              s.env == db.env && s.trail == db.trail
    {
    }

    // -------------------------------------------------------------------- lifecycle.ts

    method AdmitOperation(operation: Id, input: Admission, time: Time) returns (r: Result<Id>)
      modifies this
      ensures Reply(State(), r) == Admit(old(State()), operation, input, time)
    {
      hide RetryAt, AvailableProviders, ResolveChoice, PolicyUnchanged, StepUnchanged, Count, AdmissionLimits;
      if operation in deliveries || !SavedValid(input.saved) {
        return Failure(InvalidRequest);
      }
      var project := input.saved.project;
      var recipient := input.saved.recipient;
      if project !in world.projects {
        return Failure(ProjectAccessDenied);
      }
      if !PolicyUnchanged(world, input.saved, input.prepared) {
        return Failure(PolicyNotAllowed);
      }
      for k := 0 to |input.saved.steps|
        invariant forall j | 0 <= j < k :: StepUnchanged(world, input.saved, input.prepared, j)
      {
        if !StepUnchanged(world, input.saved, input.prepared, k) {
          return Failure(DeliveryUnavailable);
        }
      }
      if input.owner.ForBackend? && !input.servesBackends {
        return Failure(PolicyNotAllowed);
      }
      if input.saved.expiresAt <= time || input.saved.expiresAt - time > input.maxLifetime {
        return Failure(InvalidRequest);
      }
      var limits := AdmissionLimits(Env(), recipient);
      var retryAt := RetryAt(ledger, limits, time);
      if retryAt.Some? {
        return Failure(RateLimited);
      }
      var available := FindAvailableProviders(input.saved, time, None);
      var target := ResolveChoice(input.saved, input.choice, available);
      if target.Failure? {
        return Failure(target.error);
      }
      DatabaseTime(time);
      var saved := input.saved.(
        initialPosition := target.value.position,
        createdAt := time,
        authorizationRequired := world.projects[project].authorizationRequired);
      deliveries := deliveries[operation := NewDelivery(saved)];
      CountQuotas(limits, OperationEvent(operation), time);
      trail := trail + [Admitted(operation, recipient, time)];
      return Success(operation);
    }

    method AttachCodeTo(operation: Id, principal: Id, code: Code, time: Time) returns (r: Result<AttemptId>)
      requires operation in deliveries && deliveries[operation].saved.initialPosition < |deliveries[operation].saved.steps|
      modifies this
      ensures Reply(State(), r) == AttachCode(old(State()), operation, principal, code, time)
    {
      hide ScheduleCommand;
      Expire(operation, time);
      var d := deliveries[operation];
      if !Live(d.op) || d.secrets.None? {
        return Failure(OperationUnavailable);
      }
      if d.secrets.value.code.Some? {
        if d.secrets.value.code.value != code.fingerprint {
          return Failure(OperationStateConflict);
        }
        return Success(AttemptId(operation, 0));
      }
      var i := 0;
      while i < |d.saved.steps|
        invariant 0 <= i <= |d.saved.steps|
        invariant forall k | 0 <= k < i :: d.saved.steps[k].minCodeLength <= code.length <= d.saved.steps[k].maxCodeLength
      {
        if code.length < d.saved.steps[i].minCodeLength || code.length > d.saved.steps[i].maxCodeLength {
          return Failure(InvalidRequest);
        }
        i := i + 1;
      }
      deliveries := deliveries[operation := d.(
        secrets := Some(Secrets(Some(code.fingerprint))),
        op := if d.op.state.Prepared?
              then d.op.(state := Active, nextUserSendAt := time + d.saved.resendCooldown) else d.op)];
      trail := trail + [Activated(operation, time)];
      r := ScheduleCommandFor(operation, d.saved.initialPosition, Initial, principal, time);
    }

    method SubmitCode(operation: Id, principal: Id, code: Code, time: Time) returns (r: Result<AttemptId>)
      requires operation in deliveries ==> deliveries[operation].saved.initialPosition < |deliveries[operation].saved.steps|
      modifies this
      ensures Reply(State(), r) == Submit(old(State()), operation, principal, code, time)
    {
      hide AttachCode;
      if operation !in deliveries {
        return Failure(OperationNotFound);
      }
      var access := RequireAccess(world, deliveries[operation].saved.project, principal, true);
      if access.Failure? {
        return Failure(access.error);
      }
      r := AttachCodeTo(operation, principal, code, time);
    }

    method PrepareOperation(operation: Id, principal: Id, input: Admission, time: Time)
      modifies this
      ensures State() == Prepare(old(State()), operation, principal, input, time)
    {
      hide Admit;
      var access := RequireAccess(world, input.saved.project, principal, true);
      if access.Success? {
        var admitted := AdmitOperation(operation, input, time);
      }
    }

    /** One-step creation; a failed attachment rolls the admission back with everything else. */
    method CreateOperationFor(operation: Id, principal: Id, input: Admission, code: Code, time: Time, attachTime: Time)
      modifies this
      ensures State() == CreateOperation(old(State()), operation, principal, input, code, time, attachTime)
    {
      hide Admit, AttachCode, RequireAccess, RowsValid;
      var access := RequireAccess(world, input.saved.project, principal, true);
      if access.Failure? {
        return;
      }
      var savepoint := BeginTransaction();
      ghost var before := State();
      var admitted := AdmitOperation(operation, input, time);
      if admitted.Failure? {
        AdmissionAllOrNothing(before, operation, input, time);
        return;
      }
      AdmittedRows(before, operation, input, time);
      FirstStepExists(deliveries[operation]);
      var attached := AttachCodeTo(operation, principal, code, attachTime);
      if attached.Failure? {
        RollBack(savepoint, before);
      }
    }

    lemma AdmissionAllOrNothing(db: Db, operation: Id, input: Admission, time: Time)
      ensures Admit(db, operation, input, time).result.Failure? ==> Admit(db, operation, input, time).db == db
    {
    }

    lemma FirstStepExists(d: Delivery)
      requires RowsValid(d)
      ensures d.saved.initialPosition < |d.saved.steps|
    {
    }

    // -------------------------------------------------------------------- callbacks.ts

    /** Gives the attempt behind an event the provider's request id as an alias; an alias of another attempt conflicts. */
    method RegisterEventAlias(instance: Id, event: CallbackEvent) returns (alias: Option<Reference>, conflict: bool)
      modifies this`correlations
      ensures alias == if EventTarget(old(State()), instance, event).Some?
                       then Some(ProviderReference(event.request.value)) else None
      ensures var target := EventTarget(old(State()), instance, event);
              if target.None? then !conflict && correlations == old(correlations)
              else
                var registered := Register(old(State()), Alias(instance, ProviderReference(event.request.value)), target.value);
                && (conflict <==> registered.None?)
                && correlations == if conflict then old(correlations) else registered.value.correlations
    {
      if event.request.None? || !event.reference.AttemptReference? || Alias(instance, event.reference) !in correlations {
        return None, false;
      }
      var id := correlations[Alias(instance, event.reference)];
      if id.operation !in deliveries || id.index >= |deliveries[id.operation].attempts| {
        return None, false;
      }
      var d := deliveries[id.operation];
      var route := d.attempts[id.index].route;
      if route.position >= |d.saved.steps| || route.intent >= |d.intents|
         || !RevisionMatches(event.revisions, d.saved.steps[route.position].instanceRevision) {
        return None, false;
      }
      var own := Alias(instance, ProviderReference(event.request.value));
      if own in correlations {
        return Some(own.reference), correlations[own] != id;
      }
      correlations := correlations[own := id];
      return Some(own.reference), false;
    }

    /** Keeps an event once per instance and key. */
    method InsertCallback(instance: Id, event: CallbackEvent)
      modifies this`inbox
      ensures inbox == InsertRow(old(State()), instance, event).inbox
    {
      var i := 0;
      while i < |inbox|
        invariant 0 <= i <= |inbox|
        invariant inbox == old(inbox)
        invariant forall k | 0 <= k < i :: !(inbox[k].instance == instance && inbox[k].key == event.key && !inbox[k].dropped)
      {
        if inbox[i].instance == instance && inbox[i].key == event.key && !inbox[i].dropped {
          return;
        }
        i := i + 1;
      }
      inbox := inbox + [InboxRow(instance, event.key, event.reference, StatusOf(event.status), event.diagnosticCode, event.revisions, false, false)];
    }

    /** Inbox retention deletes the candidates whose reference is no alias. */
    method CleanupCallbacks(candidates: seq<nat>, time: Time)
      modifies this`clock, this`inbox
      ensures State() == ForgetCallbacks(old(State()), (set k | k in candidates), time)
    {
      DatabaseTime(time);
      ghost var before := inbox;
      for i := 0 to |candidates|
        invariant clock == Max(old(clock), time) && |inbox| == |before|
        invariant forall k | 0 <= k < |before| ::
                    inbox[k] == if k in candidates[..i] && Droppable(old(State()), before[k]) then before[k].(dropped := true) else before[k]
      {
        var k := candidates[i];
        assert candidates[..i + 1] == candidates[..i] + [k];
        if k < |inbox| && Alias(inbox[k].instance, inbox[k].reference) !in correlations {
          inbox := inbox[k := inbox[k].(dropped := true)];
        }
      }
      assert candidates[..|candidates|] == candidates;
      ghost var after := ForgetCallbacks(old(State()), (set k | k in candidates), time);
      assert |inbox| == |after.inbox| && forall k | 0 <= k < |inbox| :: inbox[k] == after.inbox[k];
      assert inbox == after.inbox;
    }

    /** Applies the unprocessed rows of one reference, in order of arrival. */
    method ReconcileAlias(alias: Alias, time: Time, mergeTime: Time)
      modifies this
      ensures State() == Reconcile(old(State()), alias, time, mergeTime)
    {
      hide Merge, ExpireOperation;
      if alias !in correlations {
        return;
      }
      var id := correlations[alias];
      if !(id.operation in deliveries && id.index < |deliveries[id.operation].attempts|
           && deliveries[id.operation].attempts[id.index].route.position < |deliveries[id.operation].saved.steps|
           && deliveries[id.operation].attempts[id.index].route.intent < |deliveries[id.operation].intents|) {
        ExpireKeepsAddress(State(), id, time);
        return;
      }
      ExpireKeepsAddress(State(), id, time);
      Expire(id.operation, time);
      ghost var expired := State();
      var d := deliveries[id.operation];
      var revision := d.saved.steps[d.attempts[id.index].route.position].instanceRevision;
      var k := 0;
      while k < |inbox|
        invariant 0 <= k <= |inbox| == |expired.inbox|
        invariant State() == ApplyRows(expired, alias, id, revision, mergeTime, k)
        invariant Addressable(State(), id)
      {
        var row := inbox[k];
        if Applicable(row, alias.instance, alias.reference, revision) && !row.processed {
          ghost var before := State();
          MergeKeepsAddress(before, id, CallbackOutcome(row), Callback(k), mergeTime);
          MergeLockedOutcome(id, CallbackOutcome(row), Callback(k), mergeTime);
          inbox := inbox[k := row.(processed := true)];
        }
        k := k + 1;
      }
    }

    lemma ExpireKeepsAddress(db: Db, id: AttemptId, time: Time)
      ensures Addressable(db, id) <==> Addressable(ExpireOperation(db, id.operation, time), id)
      ensures Addressable(db, id) ==> StepAt(ExpireOperation(db, id.operation, time), id) == StepAt(db, id)
    {
    }

    lemma MergeKeepsAddress(db: Db, id: AttemptId, outcome: Outcome, source: Source, time: Time)
      requires Addressable(db, id)
      ensures var m := Merge(db, id, outcome, source, time);
              && Addressable(m, id) && m.inbox == db.inbox
    {
      hide NextProvider, AvailableProviders, IntentEligible;
    }

    /** Inserts a batch and collects the references that it touches; a conflict undoes the whole batch. */
    method InsertBatch(instance: Id, events: seq<CallbackEvent>) returns (conflict: bool, references: set<Reference>)
      modifies this`correlations, this`inbox
      ensures conflict <==> InsertEvents(old(State()), instance, events).None?
      ensures conflict ==> State() == old(State())
      ensures !conflict ==> State() == InsertEvents(old(State()), instance, events).value
      ensures !conflict ==> references == BatchReferences(old(State()), instance, events)
    {
      hide EventTarget, SameTargets, Received;
      ghost var before := State();
      var correlations0, inbox0 := correlations, inbox;
      references := {};
      for i := 0 to |events|
        invariant InsertEvents(before, instance, events[..i]) == Some(State())
        invariant references == BatchReferences(before, instance, events[..i])
      {
        assert events[..i + 1][..i] == events[..i];
        ghost var here := State();
        InsertedTargets(before, instance, events[..i]);
        SameTarget(before, here, instance, events[i]);
        references := references + {events[i].reference};
        var alias, clash := RegisterEventAlias(instance, events[i]);
        if clash {
          ConflictSpreads(before, instance, events, i);
          correlations, inbox := correlations0, inbox0;
          return true, {};
        }
        if alias.Some? {
          references := references + {alias.value};
        }
        InsertCallback(instance, events[i]);
      }
      assert events[..|events|] == events;
      return false, references;
    }

    lemma {:induction false} ConflictSpreads(db: Db, instance: Id, events: seq<CallbackEvent>, i: nat)
      requires i < |events| && InsertEvents(db, instance, events[..i + 1]).None?
      ensures InsertEvents(db, instance, events).None?
    {
      if i + 1 == |events| {
        assert events[..i + 1] == events;
      } else {
        assert events[..|events| - 1][..i + 1] == events[..i + 1];
        ConflictSpreads(db, instance, events[..|events| - 1], i);
      }
    }

    /** Reconciles every touched reference, in some order. */
    method ReconcileReferences(instance: Id, references: set<Reference>, time: Time, mergeTime: Time)
      returns (ghost order: seq<Reference>)
      modifies this
      ensures Enumerates(order, references)
      ensures State() == ReconcileAll(old(State()), instance, order, time, mergeTime)
    {
      hide Reconcile;
      ghost var before := State();
      order := [];
      var remaining := references;
      while remaining != {}
        invariant remaining <= references
        invariant (set r | r in order) == references - remaining
        invariant State() == ReconcileAll(before, instance, order, time, mergeTime)
        decreases |remaining|
      {
        var r :| r in remaining;
        ReconcileAlias(Alias(instance, r), time, mergeTime);
        assert (order + [r])[..|order|] == order;
        OneMoreReference(order, r);
        assert references - (remaining - {r}) == (references - remaining) + {r};
        order := order + [r];
        remaining := remaining - {r};
      }
    }

    lemma OneMoreReference(order: seq<Reference>, r: Reference)
      ensures (set x | x in order + [r]) == (set x | x in order) + {r}
    {
    }

    method IngestEvents(instance: Id, events: seq<CallbackEvent>, time: Time, mergeTime: Time)
      returns (conflict: bool, ghost order: seq<Reference>)
      modifies this
      ensures State() == Ingest(old(State()), instance, events, order, time, mergeTime)
      ensures conflict ==> State() == old(State())
      ensures conflict <==> InsertEvents(old(State()), instance, events).None?
      ensures !conflict ==> Enumerates(order, BatchReferences(old(State()), instance, events))
    {
      hide InsertEvents, ReconcileAll, BatchReferences, Enumerates;
      var references;
      conflict, references := InsertBatch(instance, events);
      order := [];
      if !conflict {
        order := ReconcileReferences(instance, references, time, mergeTime);
      }
    }

    /** `recordAccepted` up to the events that the response carries. */
    method AcknowledgeAcceptance(id: AttemptId, request: Option<Id>, time: Time, mergeTime: Time) returns (conflict: bool)
      requires Addressable(State(), id)
      modifies this
      ensures conflict <==> Acknowledge(old(State()), id, request, time, mergeTime).None?
      ensures !conflict ==> State() == Acknowledge(old(State()), id, request, time, mergeTime).value
    {
      hide Merge, Reconcile;
      var d := deliveries[id.operation];
      var instance := d.saved.steps[d.attempts[id.index].route.position].instance;
      MergeLockedOutcome(id, AcceptedOutcome, Response, mergeTime);
      if request.None? {
        return false;
      }
      var alias := Alias(instance, ProviderReference(request.value));
      if alias in correlations && correlations[alias] != id {
        return true;
      }
      if alias !in correlations {
        correlations := correlations[alias := id];
      }
      ReconcileAlias(alias, time, mergeTime);
      return false;
    }

    method AcceptLocked(id: AttemptId, request: Option<Id>, events: seq<CallbackEvent>, time: Time, mergeTime: Time)
      returns (conflict: bool, ghost order: seq<Reference>)
      requires Addressable(State(), id)
      modifies this
      ensures var acknowledged := Acknowledge(old(State()), id, request, time, mergeTime);
              var instance := StepAt(old(State()), id).instance;
              if acknowledged.None? || InsertEvents(acknowledged.value, instance, events).None? then conflict
              else
                && !conflict && State() == Ingest(acknowledged.value, instance, events, order, time, mergeTime)
                && Enumerates(order, BatchReferences(acknowledged.value, instance, events))
    {
      hide Acknowledge, Ingest, InsertEvents, Enumerates, BatchReferences;
      var d := deliveries[id.operation];
      var instance := d.saved.steps[d.attempts[id.index].route.position].instance;
      order := [];
      conflict := AcknowledgeAcceptance(id, request, time, mergeTime);
      if !conflict {
        conflict, order := IngestEvents(instance, events, time, mergeTime);
      }
    }

    /** `recordAccepted`; an alias conflict rolls the whole transaction back. */
    method RecordAcceptedFor(id: AttemptId, request: Option<Id>, events: seq<CallbackEvent>, time: Time, mergeTime: Time)
      returns (conflict: bool, ghost order: seq<Reference>)
      requires Addressable(State(), id)
      modifies this
      ensures State() == RecordAccepted(old(State()), id, request, events, order, time, mergeTime)
      ensures conflict ==> State() == old(State())
      ensures !conflict ==> EnumeratesTouched(ExpireOperation(old(State()), id.operation, time), id, request, events, order, time, mergeTime)
    {
      hide Acknowledge, Ingest, InsertEvents, ExpireOperation, Addressable, StepAt;
      ghost var before := State();
      var savepoint := BeginTransaction();
      ExpireKeepsAddress(before, id, time);
      Expire(id.operation, time);
      conflict, order := AcceptLocked(id, request, events, time, mergeTime);
      if conflict {
        RollBack(savepoint, before);
      }
    }

    lemma CommittedAddress(db: Db, id: AttemptId, jobRevision: nat, time: Time, mergeTime: Time)
      requires Addressable(ExpireOperation(db, id.operation, time), id)
      requires GateVerdictAt(ExpireOperation(db, id.operation, time), id, jobRevision, time, mergeTime).Commit?
      ensures Addressable(DispatchGate(db, id, jobRevision, time, mergeTime), id)
      ensures id in DispatchGate(db, id, jobRevision, time, mergeTime).reserved
    {
      hide GateVerdictOf, ViewGate, Count, ExtendAdmission, SendLimits;
    }

    /** `authorizeAttempt`: claim, ask the send authority outside any transaction, finish. */
    method AuthorizeAttempt(id: AttemptId, jobRevision: nat, decision: AuthorityDecision, r: Readings)
      requires Addressable(State(), id) && clock <= r.claimExpiry && InOrder(r)
      modifies this`clock, this`deliveries, this`blocks, this`trail
      ensures State() == Authorize(old(State()), id, jobRevision, decision, r)
      ensures Addressable(State(), id) && clock <= r.finish
    {
      hide ClaimAttempt, FinishAttempt, GivenClaim, Addressable;
      ghost var before := State();
      ClaimKeepsAddress(before, id, jobRevision, r.claimExpiry, r.claim);
      var claim := ClaimAuthorizationOf(id, jobRevision, r.claimExpiry, r.claim);
      if claim.Some? {
        FinishKeepsAddress(State(), claim.value, decision, r.finishExpiry, r.finish);
        FinishAuthorizationOf(claim.value, decision, r.finishExpiry, r.finish);
      }
    }

    lemma ClaimKeepsAddress(db: Db, id: AttemptId, jobRevision: nat, expiryTime: Time, time: Time)
      requires Addressable(db, id) && db.clock <= expiryTime <= time
      ensures Addressable(ClaimAttempt(db, id, jobRevision, expiryTime, time), id)
      ensures ClaimAttempt(db, id, jobRevision, expiryTime, time).clock <= time
    {
      hide IntentEligible, ClaimVerdictOf;
    }

    lemma FinishKeepsAddress(db: Db, claim: Claim, decision: AuthorityDecision, expiryTime: Time, time: Time)
      requires Addressable(db, claim.attempt) && db.clock <= expiryTime <= time
      ensures Addressable(FinishAttempt(db, claim, decision, expiryTime, time), claim.attempt)
      ensures FinishAttempt(db, claim, decision, expiryTime, time).clock <= time
    {
      hide IntentEligible, RecordDenial, UsableDecision;
    }

    /** `dispatch`, as one worker runs it undisturbed: authorization, the gate, at most one provider call, and the report
        of how it ended. Without a commitment of its own gate nothing else happens. */
    method DispatchJob(id: AttemptId, jobRevision: nat, decision: AuthorityDecision, built: bool, elapsed: Time, answer: Answer, r: Readings)
      returns (committed: bool, ghost order: seq<Reference>)
      requires Addressable(State(), id) && clock <= r.claimExpiry && InOrder(r)
      modifies this
      ensures var authorized := Authorize(old(State()), id, jobRevision, decision, r);
              var gated := DispatchGate(authorized, id, jobRevision, r.gate, r.gateMerge);
              && Addressable(ExpireOperation(authorized, id.operation, r.gate), id)
              && (committed <==>
                    GateVerdictAt(ExpireOperation(authorized, id.operation, r.gate), id, jobRevision, r.gate, r.gateMerge).Commit?)
              && (!committed ==> State() == gated)
              && (committed ==>
                    && Addressable(gated, id)
                    && State() == Reported(gated, id, CallFor(gated, id, r.gate, built, elapsed, answer), order, r.report, r.reportMerge))
    {
      hide Authorize, DispatchGate, GateVerdictAt, RecordOutcome, RecordAccepted, Invoke, ExpireOperation, Addressable, StepAt, AttemptAt;
      order := [];
      AuthorizeAttempt(id, jobRevision, decision, r);
      ghost var authorized := State();
      ExpireKeepsAddress(authorized, id, r.gate);
      committed := DispatchGateFor(id, jobRevision, r.gate, r.gateMerge);
      if !committed {
        return;
      }
      CommittedAddress(authorized, id, jobRevision, r.gate, r.gateMerge);
      if !built {
        RecordOutcomeOf(id, NotInvokedOutcome(false), r.report, r.reportMerge);
        return;
      }
      if !StillInTime(id, r.gate, elapsed) {
        RecordOutcomeOf(id, NotInvokedOutcome(true), r.report, r.reportMerge);
        return;
      }
      InvokedAddress(State(), id);
      CallProvider(id);
      match answer {
        case Declined(failure) => RecordOutcomeOf(id, FailureOutcome(failure), r.report, r.reportMerge);
        case Taken(request, events) =>
          var conflict;
          conflict, order := RecordAcceptedFor(id, request, events, r.report, r.reportMerge);
      }
    }

    /** The worker's check just before the call, on what the gate read. */
    function StillInTime(id: AttemptId, gateTime: Time, elapsed: Time): (ok: bool)
      requires Addressable(State(), id)
      reads this
      ensures ok == InTime(State(), id, gateTime, elapsed)
    {
      var d := deliveries[id.operation];
      var step := d.saved.steps[d.attempts[id.index].route.position];
      var remaining := Max(0, d.saved.expiresAt - gateTime - step.sendTimeout) - elapsed;
      var approval := d.attempts[id.index].auth.expiresAt;
      remaining > step.minDeliveryWindow && (approval.None? || elapsed < approval.value - gateTime)
    }

    /** A call is made exactly while the approval, if one is needed, is unexpired and request and window still fit. */
    lemma InTimeExactly(db: Db, id: AttemptId, gateTime: Time, elapsed: Time)
      requires Addressable(db, id) && 0 <= elapsed && 0 <= StepAt(db, id).minDeliveryWindow
      ensures var step := StepAt(db, id);
              var approval := AttemptAt(db, id).auth.expiresAt;
              InTime(db, id, gateTime, elapsed) <==>
                && gateTime + elapsed + step.sendTimeout + step.minDeliveryWindow < db.deliveries[id.operation].saved.expiresAt
                && (approval.Some? ==> gateTime + elapsed < approval.value)
    {
    }

    lemma InvokedAddress(db: Db, id: AttemptId)
      requires Addressable(db, id)
      ensures Addressable(Invoke(db, id), id)
    {
    }

    // ---------------------------------------------- runtime/mutate.ts, projects/mutate.ts

    method ApplyCommand(command: Command)
      modifies this`world, this`trail
      ensures State() == AdministerWorld(old(State()), command)
    {
      world := Administer(world, command);
      trail := trail + [Administered(command)];
    }
  }

  function RecoverAll(db: Db, operations: seq<Id>, time: Time): Db {
    if operations == [] then db
    else RecoverOperation(RecoverAll(db, operations[..|operations|-1], time), operations[|operations|-1], time)
  }
}
