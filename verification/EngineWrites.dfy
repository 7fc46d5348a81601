/** The writes that every transaction is made of. A property that each write keeps is kept by every
    transaction, so invariants of the engine are proved write by write. */
module EngineWrites {
  import opened Prelude
  import opened Records
  import opened Routing
  import opened RoutingSteps
  import opened Authority
  import opened Quotas
  import opened Engine
  import opened EngineInvariant
  import opened EngineSteps
  import opened InboxSteps

  datatype Write =
    | Expiring(operation: Id, time: Time)
    | Closing(operation: Id, time: Time)
    | Admitting(operation: Id, input: Admission, time: Time)
    | Activating(operation: Id, code: Id, time: Time)
    | Starting(operation: Id, principal: Id, time: Time)
    | Sending(operation: Id, principal: Id, action: Action, time: Time)
    | Claiming(attempt: AttemptId, jobRevision: nat, time: Time)
    | Finishing(claim: Claim, decision: AuthorityDecision, time: Time)
    | Gating(attempt: AttemptId, jobRevision: nat, time: Time, mergeTime: Time)
    | Invoking(attempt: AttemptId)
    | Reporting(attempt: AttemptId, outcome: Outcome, time: Time)
    | Recovering(operation: Id, time: Time)
    | Registering(alias: Alias, attempt: AttemptId)
    | Inserting(instance: Id, event: CallbackEvent)
    | Applying(alias: Alias, row: nat, time: Time)
    | Administering(command: Command)
    | Cleaning(doomed: set<EventKey>, time: Time)
    | Guessing(recipient: Id, guess: Id, time: Time)
    | Forgetting(places: set<nat>, time: Time)

  predicate WasClaimed(db: Db, claim: Claim) {
    exists k :: 0 <= k < |db.trail| && db.trail[k].Claimed? && db.trail[k].claim == claim
  }

  predicate WasGuessed(db: Db, guess: Id) {
    exists k :: 0 <= k < |db.trail| && db.trail[k].Guessed? && db.trail[k].guess == guess
  }

  /** An unprocessed inbox row that belongs to the attempt behind an alias. */
  predicate Waiting(db: Db, alias: Alias, k: nat) {
    && k < |db.inbox|
    && alias in db.correlations
    && Addressable(db, db.correlations[alias])
    && Applicable(db.inbox[k], alias.instance, alias.reference, StepAt(db, db.correlations[alias]).instanceRevision)
    && !db.inbox[k].processed
  }

  /** What has been checked, under the locks, when a write happens. */
  ghost predicate Allowed(db: Db, w: Write) {
    match w
    case Expiring(_, _) => true
    case Closing(operation, _) => operation in db.deliveries
    case Admitting(_, _, time) => db.clock <= time
    case Activating(operation, _, time) =>
      operation in db.deliveries && db.clock == time && db.deliveries[operation].op.state.Prepared?
    case Starting(operation, _, time) =>
      && operation in db.deliveries && db.clock == time
      && var d := db.deliveries[operation]; d.op.state.Active? && d.attempts == [] && !d.op.recipientInvalid
    case Sending(operation, principal, _, time) =>
      && operation in db.deliveries && db.clock == time
      && RequireAccess(db.env.world, db.deliveries[operation].saved.project, principal, true).Success?
    case Claiming(attempt, _, time) => Addressable(db, attempt) && db.clock <= time
    case Finishing(claim, _, time) => Addressable(db, claim.attempt) && WasClaimed(db, claim) && db.clock <= time
    case Gating(attempt, _, time, mergeTime) => Addressable(db, attempt) && db.clock == time <= mergeTime
    case Invoking(_) => true
    case Reporting(attempt, outcome, _) => Known(db, attempt) && OutcomeValid(outcome)
    case Recovering(operation, _) => operation in db.deliveries
    case Registering(alias, attempt) =>
      AliasValid(db, alias, attempt) && alias.reference.ProviderReference? && Register(db, alias, attempt).Some?
    case Inserting(_, event) => ReferenceKnown(db, event.reference)
    case Applying(alias, k, _) => Waiting(db, alias, k)
    case Administering(_) => true
    case Cleaning(doomed, time) => Deletable(db.env.ledger, doomed, time) && db.clock <= time
    case Guessing(_, guess, time) => !WasGuessed(db, guess) && db.clock <= time
    case Forgetting(_, _) => true
  }

  ghost function Perform(db: Db, w: Write): Db
    requires Allowed(db, w)
  {
    match w
    case Expiring(operation, time) => ExpireOperation(db, operation, time)
    case Closing(operation, time) => CloseLocked(db, operation, time)
    case Admitting(operation, input, time) => Admit(db, operation, input, time).db
    case Activating(operation, code, time) => ActivateLocked(db, operation, code, time)
    case Starting(operation, principal, time) => InitialSend(db, operation, principal, time).db
    case Sending(operation, principal, action, time) => RequestSendLocked(db, operation, principal, action, time).db
    case Claiming(attempt, jobRevision, time) => ClaimLocked(db, attempt, jobRevision, time)
    case Finishing(claim, decision, time) => FinishLocked(db, claim, decision, time)
    case Gating(attempt, jobRevision, time, mergeTime) => GateLocked(db, attempt, jobRevision, time, mergeTime)
    case Invoking(attempt) => Invoke(db, attempt)
    case Reporting(attempt, outcome, time) => Merge(db, attempt, outcome, Response, time)
    case Recovering(operation, time) => RecoverLocked(db, operation, time)
    case Registering(alias, attempt) => Register(db, alias, attempt).value
    case Inserting(instance, event) => InsertRow(db, instance, event)
    case Applying(alias, k, time) => ApplyRow(db, db.correlations[alias], k, time)
    case Administering(command) => AdministerWorld(db, command)
    case Cleaning(doomed, time) => Clean(db, doomed, time)
    case Guessing(recipient, guess, time) => CountGuess(db, recipient, guess, time)
    case Forgetting(places, time) => ForgetCallbacks(db, places, time)
  }

  lemma OperationKeeps(db: Db, w: Write)
    requires DbValid(db) && Allowed(db, w)
    requires w.Expiring? || w.Closing? || w.Admitting? || w.Activating? || w.Starting? || w.Sending?
    ensures DbValid(Perform(db, w)) && DbEvolves(db, Perform(db, w))
  {
    hide DbValid, DbEvolves, Admit, InitialSend, RequestSendLocked, ExpireOperation, CloseLocked, ActivateLocked;
    match w
    case Expiring(operation, time) => ExpireValid(db, operation, time);
    case Closing(operation, time) => CloseLockedValid(db, operation, time);
    case Admitting(operation, input, time) => AdmitValid(db, operation, input, time);
    case Activating(operation, code, time) => ActivateLockedValid(db, operation, code, time);
    case Starting(operation, principal, time) => InitialValid(db, operation, principal, time);
    case Sending(operation, principal, action, time) => RequestLockedValid(db, operation, principal, action, time);
  }

  lemma WriteKeeps(db: Db, w: Write)
    requires DbValid(db) && Allowed(db, w)
    ensures DbValid(Perform(db, w)) && DbEvolves(db, Perform(db, w))
  {
    hide DbValid, DbEvolves, Admit, InitialSend, RequestSendLocked, ExpireOperation, CloseLocked, ActivateLocked, ClaimLocked,
      FinishLocked, GateLocked, Merge, RecoverLocked;
    match w
    case Claiming(attempt, jobRevision, time) => ClaimLockedValid(db, attempt, jobRevision, time);
    case Finishing(claim, decision, time) => FinishLockedValid(db, claim, decision, time);
    case Gating(attempt, jobRevision, time, mergeTime) => GateLockedValid(db, attempt, jobRevision, time, mergeTime);
    case Invoking(attempt) => InvokeValid(db, attempt);
    case Reporting(attempt, outcome, time) => MergeValid(db, attempt, outcome, Response, time);
    case Recovering(operation, time) => RecoverLockedValid(db, operation, time);
    case Registering(alias, attempt) => RegisterValid(db, alias, attempt);
    case Inserting(instance, event) => InsertRowValid(db, instance, event);
    case Applying(alias, k, time) =>
      RowKnown(db, alias, k);
      ApplyRowValid(db, db.correlations[alias], k, time);
    case Administering(command) => AdministerValid(db, command);
    case Cleaning(doomed, time) => OtherTables(db, Clean(db, doomed, time));
    case Guessing(recipient, guess, time) => OtherTables(db, CountGuess(db, recipient, guess, time));
    case Forgetting(places, time) => ForgetValid(db, places, time);
    case _ => OperationKeeps(db, w);
  }

  /** Neither a new alias nor a new inbox row, so no callback can start to wait. */
  predicate Settling(w: Write) { !w.Registering? && !w.Inserting? }

  /** Every single write keeps the property. */
  ghost predicate Inductive(inv: Db -> bool) {
    forall db: Db, w: Write | Allowed(db, w) :: DbValid(db) && inv(db) ==> inv(Perform(db, w))
  }

  /** Every write but new aliases and new inbox rows keeps the property. */
  ghost predicate Stable(inv: Db -> bool) {
    forall db: Db, w: Write | Allowed(db, w) && Settling(w) :: DbValid(db) && inv(db) ==> inv(Perform(db, w))
  }

  lemma InductiveStable(inv: Db -> bool)
    requires Inductive(inv)
    ensures Stable(inv)
  {
    hide Allowed, Perform, DbValid;
  }

  /** `b` is reached from `a` by writes: it is valid, has evolved, and has the property. */
  ghost predicate Arrives(a: Db, b: Db, inv: Db -> bool) {
    DbValid(b) && DbEvolves(a, b) && inv(b)
  }

  lemma AnyWrite(a: Db, db: Db, w: Write, inv: Db -> bool)
    requires Inductive(inv) && Arrives(a, db, inv) && Allowed(db, w)
    ensures Arrives(a, Perform(db, w), inv)
  {
    hide DbValid, DbEvolves, Perform, Allowed;
    WriteKeeps(db, w);
    DbEvolvesTransitive(a, db, Perform(db, w));
  }

  lemma Write1(a: Db, db: Db, w: Write, inv: Db -> bool)
    requires Stable(inv) && Arrives(a, db, inv) && Allowed(db, w) && Settling(w)
    ensures Arrives(a, Perform(db, w), inv)
  {
    hide DbValid, DbEvolves, Perform, Allowed;
    WriteKeeps(db, w);
    DbEvolvesTransitive(a, db, Perform(db, w));
  }

  lemma Stays(db: Db, inv: Db -> bool)
    requires DbValid(db) && inv(db)
    ensures Arrives(db, db, inv)
  {
    DbEvolvesReflexive(db);
  }
}
