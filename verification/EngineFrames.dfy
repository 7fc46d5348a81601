/** What each write of the engine records and what it leaves alone. */
module EngineFrames {
  import opened Prelude
  import opened Records
  import opened Decision
  import opened Routing
  import opened RoutingInvariant
  import opened RowFrames
  import opened Authority
  import opened Quotas
  import opened Eligibility
  import opened Engine
  import opened EngineInvariant
  import opened EngineSteps
  import opened EngineWrites

  function CommittedOf(db: Db, id: AttemptId): Option<Time> {
    if id.operation in db.deliveries then CommittedAt(db.deliveries[id.operation], id.index) else None
  }

  ghost predicate KeepsCommits(a: Db, b: Db) {
    forall id: AttemptId :: CommittedOf(b, id) == CommittedOf(a, id)
  }

  ghost predicate KeepsAuth(a: Db, b: Db) {
    forall op | op in b.deliveries ::
      if op in a.deliveries then SameAuth(a.deliveries[op], b.deliveries[op]) else b.deliveries[op].attempts == []
  }

  ghost predicate KeepsEvidence(a: Db, b: Db, but: Option<AttemptId>) {
    forall op | op in a.deliveries ::
      op in b.deliveries && SameEvidence(a.deliveries[op], b.deliveries[op],
        if but.Some? && but.value.operation == op then Some(but.value.index) else None)
  }

  predicate Commits(db: Db, w: Write) {
    w.Gating? && Addressable(db, w.attempt) && GateVerdictAt(db, w.attempt, w.jobRevision, w.time, w.mergeTime).Commit?
  }

  predicate Denies(db: Db, w: Write) {
    && w.Finishing? && Addressable(db, w.claim.attempt)
    && w.decision.DenyProject? && Decides(AttemptAt(db, w.claim.attempt), w.claim.generation)
  }

  predicate Grants(db: Db, w: Write) {
    && w.Claiming? && Addressable(db, w.attempt)
    && var d := db.deliveries[w.attempt.operation];
       ClaimVerdictOf(d, w.attempt.index, w.jobRevision, w.time,
         IntentEligible(db.env.world, d.saved, IntentAt(db, w.attempt)), BlockOf(db, d.saved.project)).ClaimGranted?
  }

  /** The facts that a write adds to the trail. */
  ghost function NewFacts(db: Db, w: Write): seq<Fact>
    requires Allowed(db, w)
  {
    if w.Admitting? && Admit(db, w.operation, w.input, w.time).result.Success? then
      [Admitted(w.operation, w.input.saved.recipient, w.time)]
    else if w.Activating? then [Activated(w.operation, w.time)]
    else if w.Sending? && ChooseTarget(db, db.deliveries[w.operation], w.action, w.time).Success? then
      var d := db.deliveries[w.operation];
      [Explicit(AttemptId(w.operation, |d.attempts|), d.saved.recipient, w.time)]
    else if Grants(db, w) then
      [Claimed(Claim(w.attempt, AttemptAt(db, w.attempt).auth.generation + 1,
                     BlockOf(db, db.deliveries[w.attempt.operation].saved.project).generation), w.time)]
    else if Denies(db, w) then
      [ProjectDenied(db.deliveries[w.claim.attempt.operation].saved.project, Max(w.time + 1000, w.decision.retryAt))]
    else if Commits(db, w) then [Dispatched(w.attempt, db.deliveries[w.attempt.operation].saved.recipient, w.time)]
    else if w.Invoking? && w.attempt in db.reserved then [Called(w.attempt)]
    else if w.Administering? then [Administered(w.command)]
    else if w.Guessing? && RetryAt(db.env.ledger, GuessLimits(db.env.settings, w.recipient), w.time).None? then
      [Guessed(w.guess, w.recipient, w.time)]
    else []
  }

  /** A write adds at most one fact, and each kind of fact has one cause. */
  lemma FactKinds(db: Db, w: Write)
    requires Allowed(db, w)
    ensures |NewFacts(db, w)| <= 1
    ensures NewFacts(db, w) != [] ==>
              var fact := NewFacts(db, w)[0];
              && (fact.Claimed? <==> Grants(db, w)) && (fact.ProjectDenied? <==> Denies(db, w))
              && (fact.Dispatched? <==> Commits(db, w))
              && (fact.Admitted? ==> w.Admitting?) && (fact.Activated? ==> w.Activating?)
              && (fact.Explicit? ==> w.Sending?) && (fact.Administered? <==> w.Administering?) && (fact.Called? ==> w.Invoking? && w.attempt in db.reserved)
              && (fact.Guessed? ==> w.Guessing?)
    ensures Grants(db, w) || Denies(db, w) || Commits(db, w) ==> NewFacts(db, w) != []
    ensures Grants(db, w) ==> w.Claiming?
    ensures Denies(db, w) ==> w.Finishing?
    ensures Commits(db, w) ==> w.Gating?
    ensures Denies(db, w) ==>
              NewFacts(db, w)[0] == ProjectDenied(db.deliveries[w.claim.attempt.operation].saved.project,
                                                  Max(w.time + 1000, w.decision.retryAt))
    ensures Commits(db, w) ==>
              NewFacts(db, w)[0] == Dispatched(w.attempt, db.deliveries[w.attempt.operation].saved.recipient, w.time)
    ensures Grants(db, w) ==>
              NewFacts(db, w)[0] == Claimed(Claim(w.attempt, AttemptAt(db, w.attempt).auth.generation + 1,
                BlockOf(db, db.deliveries[w.attempt.operation].saved.project).generation), w.time)
  {
    hide Admit, ChooseTarget, GateVerdictAt, ClaimVerdictOf, IntentEligible;
  }

  /** The tables that only particular writes touch. */
  ghost predicate KeepsTables(a: Db, b: Db) {
    && b.trail == a.trail && b.reserved == a.reserved && b.blocks == a.blocks
    && b.env.settings == a.env.settings && b.env.world == a.env.world && b.env.ledger == a.env.ledger
    && a.clock <= b.clock
  }

  lemma MergeTables(db: Db, id: AttemptId, outcome: Outcome, source: Source, time: Time)
    ensures KeepsTables(db, Merge(db, id, outcome, source, time))
    ensures Merge(db, id, outcome, source, time).inbox == db.inbox
  {
    hide MergeOutcome, AvailableProviders, NextProvider, IntentEligible;
  }

  lemma GateRecords(db: Db, w: Write)
    requires w.Gating? && Allowed(db, w)
    ensures Perform(db, w).trail == db.trail + NewFacts(db, w)
    ensures Perform(db, w).reserved == if Commits(db, w) then db.reserved + {w.attempt} else db.reserved
    ensures KeepsTables(db, Perform(db, w).(trail := db.trail, reserved := db.reserved, env := db.env))
    ensures Perform(db, w).env == db.env.(ledger := Perform(db, w).env.ledger)
    ensures !Commits(db, w) ==> Perform(db, w).env == db.env
  {
    hide Gate, GateVerdictOf, ViewGate, RegisterScheduled, Count, ExtendAdmission, SendLimits;
  }

  lemma AuthorityRecords(db: Db, w: Write)
    requires w.Claiming? || w.Finishing?
    requires Allowed(db, w)
    ensures Perform(db, w).trail == db.trail + NewFacts(db, w)
    ensures KeepsTables(db, Perform(db, w).(trail := db.trail, blocks := db.blocks))
    ensures w.Claiming? ==> Perform(db, w).blocks == db.blocks
  {
    hide ClaimAuthorization, FinishAuthorization, IntentEligible;
  }

  /** What a write does to the trail and to the tables that only particular writes touch. */
  ghost predicate Recorded(db: Db, w: Write)
    requires Allowed(db, w)
  {
    var b := Perform(db, w);
    && b.trail == db.trail + NewFacts(db, w)
    && b.reserved == (if Commits(db, w) then db.reserved + {w.attempt}
                      else if w.Invoking? then db.reserved - {w.attempt} else db.reserved)
    && b.env.settings == db.env.settings
    && (!w.Administering? ==> b.env.world == db.env.world)
    && (!w.Finishing? ==> b.blocks == db.blocks)
    && (!w.Admitting? && !w.Sending? && !Commits(db, w) && !w.Cleaning? && !w.Guessing? ==> b.env.ledger == db.env.ledger)
    && db.clock <= b.clock
  }

  lemma SendingRecords(db: Db, w: Write)
    requires Allowed(db, w) && w.Sending?
    ensures Recorded(db, w)
  {
    hide SendExplicit, ChooseTarget, RequestSendLocked, RequireAccess, CaptureAuthority, Count;
    RequestDecidedFirst(db, w.operation, w.principal, w.action, w.time);
  }

  lemma AdmittingRecords(db: Db, w: Write)
    requires Allowed(db, w) && w.Admitting?
    ensures Recorded(db, w)
  {
    hide Admit, RetryAt;
    AdmissionRecords(db, w.operation, w.input, w.time);
  }

  lemma OperationRecords(db: Db, w: Write)
    requires Allowed(db, w)
    requires w.Expiring? || w.Closing? || w.Activating? || w.Starting?
    ensures Recorded(db, w)
  {
    hide Expire, Terminate, RequireAccess, CaptureAuthority, Activate, ScheduleExplicit, RetryAt;
  }

  lemma AttemptRecords(db: Db, w: Write)
    requires Allowed(db, w)
    requires w.Claiming? || w.Finishing? || w.Gating? || w.Reporting? || w.Applying? || w.Recovering?
    ensures Recorded(db, w)
  {
    hide Gate, GateVerdictOf, GateLocked, Merge, ClaimLocked, FinishLocked, RecoverOverdue, IntentEligible,
      ViewGate, ClaimVerdictOf;
    match w
    case Gating(_, _, _, _) => GateRecords(db, w);
    case Claiming(_, _, _) => AuthorityRecords(db, w);
    case Finishing(_, _, _) => AuthorityRecords(db, w);
    case Reporting(id, outcome, time) => MergeTables(db, id, outcome, Response, time);
    case Applying(alias, k, time) =>
      MergeTables(db, db.correlations[alias], CallbackOutcome(db.inbox[k]), Callback(k), time);
    case _ =>
  }

  lemma TableRecords(db: Db, w: Write)
    requires Allowed(db, w)
    requires w.Invoking? || w.Registering? || w.Inserting? || w.Administering? || w.Cleaning? || w.Guessing? || w.Forgetting?
    ensures Recorded(db, w)
  {
    hide Administer, RetryAt, Count, Cleanup;
  }

  /** Every write adds exactly its facts to the trail. */
  lemma WriteRecords(db: Db, w: Write)
    requires Allowed(db, w)
    ensures Recorded(db, w)
  {
    hide Recorded, Allowed;
    match w
    case Claiming(_, _, _) => AttemptRecords(db, w);
    case Finishing(_, _, _) => AttemptRecords(db, w);
    case Gating(_, _, _, _) => AttemptRecords(db, w);
    case Reporting(_, _, _) => AttemptRecords(db, w);
    case Applying(_, _, _) => AttemptRecords(db, w);
    case Recovering(_, _) => AttemptRecords(db, w);
    case Invoking(_) => TableRecords(db, w);
    case Registering(_, _) => TableRecords(db, w);
    case Inserting(_, _) => TableRecords(db, w);
    case Administering(_) => TableRecords(db, w);
    case Cleaning(_, _) => TableRecords(db, w);
    case Guessing(_, _, _) => TableRecords(db, w);
    case Forgetting(_, _) => TableRecords(db, w);
    case Sending(_, _, _, _) => SendingRecords(db, w);
    case Admitting(_, _, _) => AdmittingRecords(db, w);
    case _ => OperationRecords(db, w);
  }

  /** The trail after a write, seen from one part of the invariant. */
  lemma TrailAfter(db: Db, w: Write) returns (b: Db, facts: seq<Fact>)
    requires Allowed(db, w)
    ensures b == Perform(db, w) && b.trail == db.trail + facts && |facts| <= 1 && facts == NewFacts(db, w)
    ensures facts == [] ==> b.trail == db.trail
    ensures facts != [] ==> b.trail == db.trail + [facts[0]] && b.trail[|db.trail|] == facts[0]
    ensures facts != [] ==>
              && (facts[0].Claimed? <==> Grants(db, w)) && (facts[0].ProjectDenied? <==> Denies(db, w))
              && (facts[0].Dispatched? <==> Commits(db, w)) && (facts[0].Administered? <==> w.Administering?)
              && (facts[0].Admitted? ==> w.Admitting?) && (facts[0].Activated? ==> w.Activating?)
              && (facts[0].Explicit? ==> w.Sending?)
    ensures Grants(db, w) || Denies(db, w) || Commits(db, w) ==> facts != []
    ensures forall k | 0 <= k < |db.trail| :: b.trail[k] == db.trail[k]
    ensures forall k: nat | k <= |db.trail| :: b.trail[..k] == db.trail[..k]
    ensures !w.Finishing? ==> b.blocks == db.blocks
    ensures db.clock <= b.clock
  {
    hide Perform, Allowed, Grants, Denies, Commits, NewFacts;
    WriteRecords(db, w);
    FactKinds(db, w);
    b := Perform(db, w);
    facts := NewFacts(db, w);
    assert facts != [] ==> facts == [facts[0]];
  }

  lemma AdmissionRecords(db: Db, operation: Id, input: Admission, time: Time)
    ensures var r := Admit(db, operation, input, time);
            && r.db.reserved == db.reserved && r.db.env.settings == db.env.settings && r.db.env.world == db.env.world
            && r.db.blocks == db.blocks && r.db.correlations == db.correlations
            && r.db.inbox == db.inbox && r.db.observations == db.observations
            && db.clock <= r.db.clock
            && r.db.trail == db.trail + if r.result.Success? then [Admitted(operation, input.saved.recipient, time)] else []
  {
    hide AvailableProviders;
  }

  // ---------------------------------------------------------- frames of the rows

  lemma StoredFrames(db: Db, operation: Id, e: Delivery, b: Db)
    requires operation in db.deliveries && b.deliveries == db.deliveries[operation := e]
    ensures SameCommits(db.deliveries[operation], e) ==> KeepsCommits(db, b)
    ensures SameAuth(db.deliveries[operation], e) ==> KeepsAuth(db, b)
    ensures SameEvidence(db.deliveries[operation], e, None) ==> KeepsEvidence(db, b, None)
    ensures forall i: nat :: SameEvidence(db.deliveries[operation], e, Some(i)) ==>
              KeepsEvidence(db, b, Some(AttemptId(operation, i)))
  {
  }

  lemma UnchangedFrames(a: Db, b: Db)
    requires b.deliveries == a.deliveries
    ensures KeepsCommits(a, b) && KeepsAuth(a, b) && KeepsEvidence(a, b, None)
  {
  }

  /** The rows that a write puts back, when it changes one existing operation. */
  ghost predicate Rewrites(db: Db, w: Write, operation: Id, e: Delivery)
    requires Allowed(db, w)
  {
    operation in db.deliveries && Perform(db, w).deliveries == db.deliveries[operation := e]
  }

  lemma SentRows(db: Db, operation: Id, principal: Id, action: Action, time: Time) returns (e: Delivery)
    requires DbValid(db) && Allowed(db, Sending(operation, principal, action, time))
    ensures Rewrites(db, Sending(operation, principal, action, time), operation, e)
    ensures Undisturbed(db.deliveries[operation], e)
  {
    hide DbValid, ChooseTarget, RowsValid, SendExplicit;
    var d := db.deliveries[operation];
    var target := ChooseTarget(db, d, action, time);
    RequestDecidedFirst(db, operation, principal, action, time);
    if target.Success? {
      ValidRows(db, operation);
      var intent := CapturedIntent(db.env.world, d.saved, ReasonOf(action), principal, time);
      e := SendExplicit(d, target.value.position, ReasonOf(action), intent, time);
      SendExplicitQuiet(d, target.value.position, ReasonOf(action), intent, time);
    } else {
      e := d;
      assert db.deliveries == db.deliveries[operation := d];
    }
  }

  lemma StartedRows(db: Db, operation: Id, principal: Id, time: Time) returns (e: Delivery)
    requires Allowed(db, Starting(operation, principal, time))
    ensures Rewrites(db, Starting(operation, principal, time), operation, e)
    ensures Undisturbed(db.deliveries[operation], e)
  {
    hide RequireAccess, CaptureAuthority;
    var d := db.deliveries[operation];
    var r := InitialSend(db, operation, principal, time);
    if r.result.Success? {
      var intent := CapturedIntent(db.env.world, d.saved, Initial, principal, time);
      e := ScheduleExplicit(d, d.saved.initialPosition, Initial, intent, time);
      StartQuiet(d, intent, time);
    } else {
      e := d;
      assert db.deliveries == db.deliveries[operation := d];
    }
  }

  /** The attempt whose own state a write may move. */
  ghost function Subject(db: Db, w: Write): Option<AttemptId>
    requires Allowed(db, w)
  {
    match w
    case Gating(attempt, _, _, _) => Some(attempt)
    case Reporting(attempt, _, _) => Some(attempt)
    case Applying(alias, _, _) => Some(db.correlations[alias])
    case _ => None
  }

  ghost predicate Framed(db: Db, w: Write)
    requires Allowed(db, w)
  {
    var b := Perform(db, w);
    && (!Commits(db, w) ==> KeepsCommits(db, b))
    && (!w.Claiming? && !w.Finishing? ==> KeepsAuth(db, b))
    && (!w.Recovering? ==> KeepsEvidence(db, b, Subject(db, w)))
  }

  lemma OperationFramed(db: Db, w: Write)
    requires DbValid(db) && Allowed(db, w)
    requires w.Expiring? || w.Closing? || w.Admitting? || w.Activating? || w.Starting? || w.Sending?
    ensures Framed(db, w)
  {
    hide DbValid, RowsValid, Undisturbed, KeepsCommits, KeepsAuth, KeepsEvidence, SameCommits, SameAuth, SameEvidence,
      Terminate, Expire, Admit, RequestSendLocked, InitialSend, Activate;
    var b := Perform(db, w);
    match w
    case Expiring(operation, time) =>
      if operation in db.deliveries {
        ValidRows(db, operation);
        ExpireQuiet(db.deliveries[operation], time);
        QuietStored(db, operation, Expire(db.deliveries[operation], time), b);
      } else {
        UnchangedFrames(db, b);
      }
    case Closing(operation, time) =>
      ValidRows(db, operation);
      TerminateQuiet(db.deliveries[operation], Closed, time);
      QuietStored(db, operation, Terminate(db.deliveries[operation], Closed, time), b);
    case Activating(operation, code, time) =>
      ActivateQuiet(db.deliveries[operation], code, time);
      QuietStored(db, operation, Activate(db.deliveries[operation], code, time), b);
    case Starting(operation, principal, time) =>
      var e := StartedRows(db, operation, principal, time);
      QuietStored(db, operation, e, b);
    case Sending(operation, principal, action, time) =>
      var e := SentRows(db, operation, principal, action, time);
      QuietStored(db, operation, e, b);
    case Admitting(operation, input, time) => AdmissionFramed(db, operation, input, time);
  }

  lemma QuietStored(db: Db, operation: Id, e: Delivery, b: Db)
    requires operation in db.deliveries && b.deliveries == db.deliveries[operation := e]
    requires Undisturbed(db.deliveries[operation], e)
    ensures KeepsCommits(db, b) && KeepsAuth(db, b) && KeepsEvidence(db, b, None)
  {
    StoredFrames(db, operation, e, b);
  }

  lemma AdmissionFramed(db: Db, operation: Id, input: Admission, time: Time)
    requires DbValid(db)
    ensures var b := Admit(db, operation, input, time).db;
            KeepsCommits(db, b) && KeepsAuth(db, b) && KeepsEvidence(db, b, None)
  {
    hide DbValid, Admit, RowsValid;
    var r := Admit(db, operation, input, time);
    if r.result.Success? {
      AdmittedRows(db, operation, input, time);
    } else {
      RejectedAdmission(db, operation, input, time);
      UnchangedFrames(db, r.db);
    }
  }

  lemma MergeFramed(db: Db, id: AttemptId, outcome: Outcome, source: Source, time: Time)
    requires DbValid(db) && Addressable(db, id)
    ensures var m := Merge(db, id, outcome, source, time);
            && KeepsCommits(db, m) && KeepsAuth(db, m) && KeepsEvidence(db, m, Some(id))
            && Present(m, id)
            && AttemptAt(m, id).evidence.state == ResultingState(AttemptAt(db, id).evidence.state, outcome.state)
  {
    hide DbValid, RowsValid, KeepsCommits, KeepsAuth, KeepsEvidence, SameCommits, SameAuth, SameEvidence, MergeOutcome,
      AvailableProviders, NextProvider, IntentEligible, Restrict;
    var d := db.deliveries[id.operation];
    var env := Restrict(db.env, StepAt(db, id).instance, outcome.retryAt);
    var intent := IntentAt(db, id);
    var next := NextProvider(AvailableProviders(env, d.saved, time, Some(intent)), AttemptAt(db, id).route.position);
    var eligible := IntentEligible(env.world, d.saved, intent);
    ValidRows(db, id.operation);
    MergeFrame(d, id.index, outcome, eligible, next, time);
    StoredFrames(db, id.operation, MergeOutcome(d, id.index, outcome, eligible, next, time), Merge(db, id, outcome, source, time));
  }

  lemma GateFramed(db: Db, id: AttemptId, jobRevision: nat, time: Time, mergeTime: Time)
    requires DbValid(db) && Addressable(db, id)
    ensures var g := GateLocked(db, id, jobRevision, time, mergeTime);
            && (!GateVerdictAt(db, id, jobRevision, time, mergeTime).Commit? ==> KeepsCommits(db, g))
            && KeepsAuth(db, g) && KeepsEvidence(db, g, Some(id))
  {
    hide DbValid, RowsValid, KeepsCommits, KeepsAuth, KeepsEvidence, SameCommits, SameAuth, SameEvidence, Gate,
      GateVerdictOf, ViewGate;
    var d := db.deliveries[id.operation];
    var view := ViewGate(db, id, time, mergeTime);
    ValidRows(db, id.operation);
    GateFrame(d, id.index, jobRevision, time, mergeTime, view);
    StoredFrames(db, id.operation, Gate(d, id.index, jobRevision, time, mergeTime, view),
      GateLocked(db, id, jobRevision, time, mergeTime));
  }

  lemma ClaimFramed(db: Db, w: Write)
    requires DbValid(db) && Allowed(db, w) && w.Claiming?
    ensures Framed(db, w)
  {
    hide DbValid, RowsValid, KeepsCommits, KeepsAuth, KeepsEvidence, SameCommits, SameAuth, SameEvidence, ClaimAuthorization,
      IntentEligible, ClaimVerdictOf, RegisterScheduled;
    var id := w.attempt;
    var d := db.deliveries[id.operation];
    ValidRows(db, id.operation);
    var eligible := IntentEligible(db.env.world, d.saved, IntentAt(db, id));
    var block := BlockOf(db, d.saved.project);
    ClaimFrame(d, id.index, w.jobRevision, w.time, eligible, block);
    StoredFrames(db, id.operation, ClaimAuthorization(d, id.index, w.jobRevision, w.time, eligible, block), Perform(db, w));
  }

  lemma FinishFramed(db: Db, w: Write)
    requires DbValid(db) && Allowed(db, w) && w.Finishing?
    ensures Framed(db, w)
  {
    hide DbValid, RowsValid, KeepsCommits, KeepsAuth, KeepsEvidence, SameCommits, SameAuth, SameEvidence, FinishAuthorization,
      IntentEligible, RegisterScheduled;
    var id := w.claim.attempt;
    var d := db.deliveries[id.operation];
    ValidRows(db, id.operation);
    var eligible := IntentEligible(db.env.world, d.saved, IntentAt(db, id));
    var block := BlockOf(db, d.saved.project);
    FinishFrame(d, id.index, w.claim, w.decision, w.time, eligible, block);
    StoredFrames(db, id.operation, FinishAuthorization(d, id.index, w.claim, w.decision, w.time, eligible, block), Perform(db, w));
  }

  lemma AttemptFramed(db: Db, w: Write)
    requires DbValid(db) && Allowed(db, w)
    requires w.Gating? || w.Reporting? || w.Applying? || w.Recovering?
    ensures Framed(db, w)
  {
    hide DbValid, RowsValid, KeepsCommits, KeepsAuth, KeepsEvidence, SameCommits, SameAuth, SameEvidence, GateLocked,
      RecoverOverdue, Merge, ClaimLocked, FinishLocked;
    var b := Perform(db, w);
    match w
    case Gating(id, jobRevision, time, mergeTime) => GateFramed(db, id, jobRevision, time, mergeTime);
    case Reporting(id, outcome, time) =>
      KnownSettled(db, id);
      MergeFramed(db, id, outcome, Response, time);
    case Applying(alias, k, time) => ApplyFramed(db, db.correlations[alias], k, time);
    case Recovering(operation, time) =>
      ValidRows(db, operation);
      RecoverFrame(db.deliveries[operation], time);
      StoredFrames(db, operation, RecoverOverdue(db.deliveries[operation], time), b);
  }

  lemma ApplyFramed(db: Db, id: AttemptId, k: nat, time: Time)
    requires DbValid(db) && Addressable(db, id) && k < |db.inbox|
    ensures var m := ApplyRow(db, id, k, time);
            && KeepsCommits(db, m) && KeepsAuth(db, m) && KeepsEvidence(db, m, Some(id))
            && Present(m, id)
            && AttemptAt(m, id).evidence.state == ResultingState(AttemptAt(db, id).evidence.state, db.inbox[k].status)
  {
    hide DbValid, Merge;
    MergeFramed(db, id, CallbackOutcome(db.inbox[k]), Callback(k), time);
  }

  lemma TableFramed(db: Db, w: Write)
    requires Allowed(db, w)
    requires w.Invoking? || w.Registering? || w.Inserting? || w.Administering? || w.Cleaning? || w.Guessing? || w.Forgetting?
    ensures Framed(db, w)
  {
    hide Administer;
    UnchangedFrames(db, Perform(db, w));
  }

  /** Only a gate commits, only claims and decisions touch authorizations, and only reports, callbacks,
      recovery and the gate move the state of a committed attempt. */
  lemma WriteFramed(db: Db, w: Write)
    requires DbValid(db) && Allowed(db, w)
    ensures Framed(db, w)
  {
    hide DbValid, Framed, Allowed;
    match w
    case Claiming(_, _, _) => ClaimFramed(db, w);
    case Finishing(_, _, _) => FinishFramed(db, w);
    case Gating(_, _, _, _) => AttemptFramed(db, w);
    case Reporting(_, _, _) => AttemptFramed(db, w);
    case Applying(_, _, _) => AttemptFramed(db, w);
    case Recovering(_, _) => AttemptFramed(db, w);
    case Invoking(_) => TableFramed(db, w);
    case Registering(_, _) => TableFramed(db, w);
    case Inserting(_, _) => TableFramed(db, w);
    case Administering(_) => TableFramed(db, w);
    case Cleaning(_, _) => TableFramed(db, w);
    case Guessing(_, _, _) => TableFramed(db, w);
    case Forgetting(_, _) => TableFramed(db, w);
    case _ => OperationFramed(db, w);
  }

  lemma CommitWrites(db: Db, w: Write)
    requires DbValid(db) && Allowed(db, w) && Commits(db, w)
    ensures CommittedOf(db, w.attempt).None? && CommittedOf(Perform(db, w), w.attempt) == Some(w.time)
    ensures forall other: AttemptId | other != w.attempt :: CommittedOf(Perform(db, w), other) == CommittedOf(db, other)
  {
    hide DbValid, RowsValid, Gate, GateVerdictOf, ViewGate;
    var id := w.attempt;
    var d := db.deliveries[id.operation];
    ValidRows(db, id.operation);
    GateFrame(d, id.index, w.jobRevision, w.time, w.mergeTime, ViewGate(db, id, w.time, w.mergeTime));
  }
}
